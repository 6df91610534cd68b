/**
 Laws of whole logs: what can never be undone, who held what and how often,
 and which completion hooks are owed.
 */
module LedgerLaws {
  import opened Rows
  import opened Ledger

  /******* What any later state keeps of a row *******/

  ghost predicate TaskMove(a: Task, b: Task) {
    && b.tenant == a.tenant && b.hookUrl == a.hookUrl && b.createdAt == a.createdAt && b.shardCount == a.shardCount
    && (a.status.Terminal() ==> b == a)
    && a.status.Rank() <= b.status.Rank()
    && (a.startedAt.Some? ==> b.startedAt == a.startedAt)
  }

  ghost predicate ShardMove(a: Shard, b: Shard) {
    && b.task == a.task && b.script == a.script
    && (a.status.Terminal() ==> b == a)
  }

  lemma TaskMoves(db: Tables, e: Event, t: TaskId)
    requires Enabled(db, e) && t in db.tasks && (e.Start? || e.Finish? ==> PairInv(db, e.shard))
    ensures TaskMove(db.tasks[t], TaskAfter(db, e, t))
  {
    FixedColumns(db, e, t, 0);
  }

  lemma ShardMoves(db: Tables, e: Event, x: ShardId)
    requires Enabled(db, e) && x in db.shards
    ensures ShardMove(db.shards[x], ShardAfter(db, e, x))
  {
    FixedColumns(db, e, 0, x);
  }

  lemma {:induction false} LegalPrefix(log: seq<Event>, k: nat)
    requires Legal(log) && k <= |log|
    ensures Legal(log[..k])
  {
    if k < |log| {
      assert Front(log)[..k] == log[..k];
      LegalPrefix(Front(log), k);
    } else {
      assert log[..k] == log;
    }
  }

  lemma {:induction false} EnabledAt(log: seq<Event>, k: nat)
    requires Legal(log) && k < |log|
    ensures Legal(log[..k]) && Enabled(Exec(log[..k]), log[k])
  {
    if k == |log| - 1 {
      assert log[..k] == Front(log) && log[k] == Last(log);
    } else {
      EnabledAt(Front(log), k);
      assert Front(log)[..k] == log[..k] && Front(log)[k] == log[k];
    }
  }

  /** The last step of a log, seen row by row. */
  lemma LastStep(log: seq<Event>)
    requires Legal(log) && |log| > 0
    ensures Legal(Front(log)) && Enabled(Exec(Front(log)), Last(log))
    ensures JointInv(Exec(Front(log))) && JointInv(Exec(log))
    ensures RowsAfter(Exec(Front(log)), Last(log), Exec(log))
  {
    JointInvariant(Front(log));
    JointInvariant(log);
    ApplyRows(Exec(Front(log)), Last(log));
  }

  /**
   Over every run: a finished task never reopens or changes, the lifecycle rank
   never goes down, and `started_at` is written once.
   */
  lemma {:induction false} TaskHistory(log: seq<Event>, k: nat, t: TaskId)
    requires Legal(log) && k <= |log| && Legal(log[..k]) && t in Exec(log[..k]).tasks
    ensures t in Exec(log).tasks && TaskMove(Exec(log[..k]).tasks[t], Exec(log).tasks[t])
  {
    if k == |log| {
      assert log[..k] == log;
    } else {
      assert Front(log)[..k] == log[..k];
      LastStep(log);
      TaskHistory(Front(log), k, t);
      var db, e := Exec(Front(log)), Last(log);
      assert e.Start? || e.Finish? ==> PairInv(db, e.shard);
      TaskMoves(db, e, t);
    }
  }

  /** Over every run: a shard never changes task, and a terminal shard never changes at all. */
  lemma {:induction false} ShardHistory(log: seq<Event>, k: nat, x: ShardId)
    requires Legal(log) && k <= |log| && Legal(log[..k]) && x in Exec(log[..k]).shards
    ensures x in Exec(log).shards && ShardMove(Exec(log[..k]).shards[x], Exec(log).shards[x])
  {
    if k == |log| {
      assert log[..k] == log;
    } else {
      assert Front(log)[..k] == log[..k];
      LastStep(log);
      ShardHistory(Front(log), k, x);
      ShardMoves(Exec(Front(log)), Last(log), x);
    }
  }

  /** A finished task's shards are finished in every later state, with the same rows. */
  lemma ClosedForGood(log: seq<Event>, k: nat, t: TaskId, x: ShardId)
    requires Legal(log) && k <= |log| && Legal(log[..k])
    requires t in Exec(log[..k]).tasks && IsShardOf(Exec(log[..k]), x, t)
    requires Exec(log[..k]).tasks[t].status.Terminal() && !AllQueued(Exec(log[..k]), t)
    ensures t in Exec(log).tasks && Exec(log).tasks[t] == Exec(log[..k]).tasks[t]
    ensures x in Exec(log).shards && Exec(log).shards[x] == Exec(log[..k]).shards[x]
  {
    JointInvariant(log[..k]);
    TaskHistory(log, k, t);
    ShardHistory(log, k, x);
    assert TaskFits(Exec(log[..k]), t) && PairInv(Exec(log[..k]), x);
  }

  /** No lost completion: an open task always has a shard left to run. */
  lemma NoLostCompletion(log: seq<Event>, t: TaskId)
    requires Legal(log) && t in Exec(log).tasks
    ensures !Exec(log).tasks[t].status.Terminal() ==> HasActive(Exec(log), t)
    ensures HasActive(Exec(log), t) && Exec(log).tasks[t].status.Terminal() ==>
      Exec(log).tasks[t].status.Failed? && AllQueued(Exec(log), t)
  {
    JointInvariant(log);
    var db := Exec(log);
    assert TaskFits(db, t);
    if HasActive(db, t) {
      var a :| IsShardOf(db, a, t) && !db.shards[a].status.Terminal();
      assert PairInv(db, a);
    }
  }

  /** For a task closed by recompute the four timestamps are set and ordered on every shard. */
  lemma TimestampOrder(log: seq<Event>, t: TaskId, x: ShardId)
    requires Legal(log) && t in Exec(log).tasks && IsShardOf(Exec(log), x, t)
    requires Exec(log).tasks[t].status.Succeeded? || (Exec(log).tasks[t].status.Failed? && !AllQueued(Exec(log), t))
    ensures var T, s := Exec(log).tasks[t], Exec(log).shards[x];
      && T.startedAt.Some? && s.startedAt.Some? && s.finishedAt.Some? && T.finishedAt.Some?
      && T.startedAt.value <= s.startedAt.value <= s.finishedAt.value <= T.finishedAt.value
  {
    JointInvariant(log);
    assert TaskFits(Exec(log), t) && PairInv(Exec(log), x);
  }

  /******* Leases: exclusive, and conserved *******/

  /** The task of a shard event, seen in the state it commits in. */
  ghost predicate About(db: Tables, e: Event, t: TaskId) {
    (e.Lease? || e.Start? || e.Finish? || e.Rollback?) && IsShardOf(db, e.shard, t)
  }

  ghost function LeaseCount(log: seq<Event>, t: TaskId): nat
    requires Legal(log)
  {
    if |log| == 0 then 0
    else LeaseCount(Front(log), t) + if Last(log).Lease? && About(Exec(Front(log)), Last(log), t) then 1 else 0
  }

  ghost function RollbackCount(log: seq<Event>, t: TaskId): nat
    requires Legal(log)
  {
    if |log| == 0 then 0
    else RollbackCount(Front(log), t) + if Last(log).Rollback? && About(Exec(Front(log)), Last(log), t) then 1 else 0
  }

  /** Shards of `t` that went from LEASED or RUNNING to a terminal status. */
  ghost function EndCount(log: seq<Event>, t: TaskId): nat
    requires Legal(log)
  {
    if |log| == 0 then 0
    else EndCount(Front(log), t) + Ended(Exec(Front(log)), Last(log), t)
  }

  ghost function Ended(db: Tables, e: Event, t: TaskId): nat {
    if e.Finish? && About(db, e, t) then 1
    else if e.Cancel? && e.task == t then |HeldShards(db, t)|
    else 0
  }

  /** How one event changes the set of held shards of a task. */
  ghost function HeldAfter(db: Tables, e: Event, t: TaskId): set<ShardId> {
    if About(db, e, t) then
      if e.Lease? then HeldShards(db, t) + {e.shard}
      else if e.Start? then HeldShards(db, t)
      else HeldShards(db, t) - {e.shard}
    else if e.Cancel? && e.task == t then {}
    else HeldShards(db, t)
  }

  lemma HeldRow(db: Tables, e: Event, t: TaskId, x: ShardId)
    requires Enabled(db, e) && IsShardOf(db, x, t)
    ensures x in HeldAfter(db, e, t) <==> ShardAfter(db, e, x).status.Held()
  {
  }

  lemma HeldMoves(db: Tables, e: Event, db': Tables, t: TaskId)
    requires Enabled(db, e) && RowsAfter(db, e, db') && WellFormed(db)
    ensures HeldShards(db', t) == HeldAfter(db, e, t)
  {
    forall x
      ensures x in HeldShards(db', t) <==> x in HeldAfter(db, e, t)
    {
      if x in db.shards {
        FixedColumns(db, e, 0, x);
        if db.shards[x].task == t { HeldRow(db, e, t, x); }
      }
    }
  }

  lemma HeldMember(db: Tables, e: Event, t: TaskId)
    requires Enabled(db, e) && About(db, e, t)
    ensures e.Lease? ==> e.shard !in HeldShards(db, t)
    ensures !e.Lease? ==> e.shard in HeldShards(db, t)
  {
  }

  lemma HeldBalance(db: Tables, e: Event, db': Tables, t: TaskId)
    requires Enabled(db, e) && RowsAfter(db, e, db') && WellFormed(db)
    ensures |HeldShards(db, t)| + (if e.Lease? && About(db, e, t) then 1 else 0)
         == |HeldShards(db', t)| + (if e.Rollback? && About(db, e, t) then 1 else 0) + Ended(db, e, t)
  {
    HeldMoves(db, e, db', t);
    HeldCount(db, e, t);
  }

  lemma HeldCount(db: Tables, e: Event, t: TaskId)
    requires Enabled(db, e)
    ensures |HeldShards(db, t)| + (if e.Lease? && About(db, e, t) then 1 else 0)
         == |HeldAfter(db, e, t)| + (if e.Rollback? && About(db, e, t) then 1 else 0) + Ended(db, e, t)
  {
    if About(db, e, t) { HeldMember(db, e, t); }
  }

  lemma LastRows(log: seq<Event>)
    requires Legal(log) && |log| > 0
    ensures Legal(Front(log)) && Enabled(Exec(Front(log)), Last(log)) && WellFormed(Exec(Front(log)))
    ensures RowsAfter(Exec(Front(log)), Last(log), Exec(log))
  {
    LastStep(log);
  }

  /** Every lease of a task's shards was rolled back, is still held, or ended in a terminal status. */
  lemma {:induction false} LeaseConservation(log: seq<Event>, t: TaskId)
    requires Legal(log)
    ensures LeaseCount(log, t) == RollbackCount(log, t) + |HeldShards(Exec(log), t)| + EndCount(log, t)
  {
    if |log| == 0 {
      assert HeldShards(Exec(log), t) == {};
    } else {
      assert Legal(Front(log));
      LeaseConservation(Front(log), t);
      LastBalance(log, t);
    }
  }

  lemma LastBalance(log: seq<Event>, t: TaskId)
    requires Legal(log) && |log| > 0 && Legal(Front(log))
    ensures var db, e := Exec(Front(log)), Last(log);
      |HeldShards(db, t)| + (if e.Lease? && About(db, e, t) then 1 else 0)
        == |HeldShards(Exec(log), t)| + (if e.Rollback? && About(db, e, t) then 1 else 0) + Ended(db, e, t)
  {
    LastRows(log);
    HeldBalance(Exec(Front(log)), Last(log), Exec(log), t);
  }

  ghost predicate RolledBackBetween(log: seq<Event>, i: nat, j: nat, x: ShardId)
    requires j <= |log|
  {
    exists k :: i < k < j && log[k].Rollback? && log[k].shard == x
  }

  lemma StaysOut(db: Tables, e: Event, x: ShardId)
    requires Enabled(db, e) && x in db.shards && !db.shards[x].status.Queued?
    requires !(e.Rollback? && e.shard == x)
    ensures !ShardAfter(db, e, x).status.Queued?
  {
  }

  lemma LastKeepsOut(log: seq<Event>, x: ShardId)
    requires Legal(log) && |log| > 0 && Legal(Front(log)) && x in Exec(Front(log)).shards
    requires !(Last(log).Rollback? && Last(log).shard == x)
    requires !Exec(Front(log)).shards[x].status.Queued? || (Last(log).Lease? && Last(log).shard == x)
    ensures x in Exec(log).shards && !Exec(log).shards[x].status.Queued?
  {
    LastRows(log);
    if !Exec(Front(log)).shards[x].status.Queued? { StaysOut(Exec(Front(log)), Last(log), x); }
  }

  /** Once leased, a shard is out of the queue until a rollback puts it back. */
  lemma {:induction false} OutOfQueue(log: seq<Event>, i: nat, n: nat, x: ShardId)
    requires i < n <= |log| && Legal(log[..n]) && log[i].Lease? && log[i].shard == x
    requires !RolledBackBetween(log, i, n, x)
    ensures x in Exec(log[..n]).shards && !Exec(log[..n]).shards[x].status.Queued?
  {
    var cut := log[..n];
    assert Front(cut) == log[..n - 1] && Last(cut) == log[n - 1];
    if i < n - 1 {
      OutOfQueue(log, i, n - 1, x);
    }
    LastKeepsOut(cut, x);
  }

  /** Two leases of one shard are always separated by a rollback of it. */
  lemma ExclusiveLeases(log: seq<Event>, i: nat, j: nat, x: ShardId)
    requires Legal(log) && i < j < |log|
    requires log[i].Lease? && log[i].shard == x && log[j].Lease? && log[j].shard == x
    ensures RolledBackBetween(log, i, j, x)
  {
    EnabledAt(log, j);
    if !RolledBackBetween(log, i, j, x) {
      OutOfQueue(log, i, j, x);
    }
  }

  /** Transitions of `x` into a terminal status. */
  ghost function TerminalCount(log: seq<Event>, x: ShardId): nat
    requires Legal(log)
  {
    if |log| == 0 then 0
    else
      var db, e := Exec(Front(log)), Last(log);
      TerminalCount(Front(log), x) +
      if x in db.shards && !db.shards[x].status.Terminal() && ShardAfter(db, e, x).status.Terminal() then 1 else 0
  }

  lemma {:induction false} TerminalOnce(log: seq<Event>, x: ShardId)
    requires Legal(log)
    ensures TerminalCount(log, x) == if x in Exec(log).shards && Exec(log).shards[x].status.Terminal() then 1 else 0
  {
    if |log| > 0 {
      LastStep(log);
      TerminalOnce(Front(log), x);
      if x in Exec(Front(log)).shards { ShardMoves(Exec(Front(log)), Last(log), x); }
    }
  }

  /** Transitions of `t` into a terminal status. */
  ghost function CloseCount(log: seq<Event>, t: TaskId): nat
    requires Legal(log)
  {
    if |log| == 0 then 0
    else
      var db, e := Exec(Front(log)), Last(log);
      CloseCount(Front(log), t) +
      if t in db.tasks && !db.tasks[t].status.Terminal() && TaskAfter(db, e, t).status.Terminal() then 1 else 0
  }

  /** However many shards report at once, exactly one transaction closes the task. */
  lemma {:induction false} ClosedOnce(log: seq<Event>, t: TaskId)
    requires Legal(log)
    ensures CloseCount(log, t) == if t in Exec(log).tasks && Exec(log).tasks[t].status.Terminal() then 1 else 0
  {
    if |log| > 0 {
      LastStep(log);
      ClosedOnce(Front(log), t);
      LastMoves(log, t);
    }
  }

  lemma LastMoves(log: seq<Event>, t: TaskId)
    requires Legal(log) && |log| > 0 && Legal(Front(log))
    ensures t in Exec(Front(log)).tasks ==> TaskMove(Exec(Front(log)).tasks[t], TaskAfter(Exec(Front(log)), Last(log), t))
    ensures t in Exec(log).tasks && t !in Exec(Front(log)).tasks ==> Exec(log).tasks[t].status.Pending?
  {
    LastStep(log);
    var db, e := Exec(Front(log)), Last(log);
    assert e.Start? || e.Finish? ==> PairInv(db, e.shard);
    if t in db.tasks { TaskMoves(db, e, t); }
  }

  /******* Completion hooks *******/

  ghost function Hooks(log: seq<Event>): seq<Payload>
    requires Legal(log)
  {
    if |log| == 0 then [] else Hooks(Front(log)) + HookSeq(HookOf(Exec(Front(log)), Last(log)))
  }

  function HookSeq(p: Option<Payload>): seq<Payload> {
    if p.Some? then [p.value] else []
  }

  ghost predicate AllSucceeded(db: Tables, t: TaskId) {
    forall x :: IsShardOf(db, x, t) ==> db.shards[x].status.Succeeded?
  }

  /** The task was closed by recompute or cancel; the poller's rejections leave every shard queued. */
  ghost predicate ClosedByWork(db: Tables, t: TaskId)
    requires t in db.tasks
  {
    db.tasks[t].status.Terminal() && !(db.tasks[t].status.Failed? && AllQueued(db, t))
  }

  /** The payload tells the task's outcome, whatever it says of the finish time. */
  ghost predicate OutcomeFits(db: Tables, p: Payload) {
    && p.task in db.tasks
    && var t := db.tasks[p.task];
    && ClosedByWork(db, p.task)
    && p.status == t.status && p.lastError == t.lastError
    && p.tenant == t.tenant && p.url == t.hookUrl && p.url != ""
    && (p.resultAvailable <==> AllSucceeded(db, p.task))
  }

  ghost predicate PayloadFits(db: Tables, p: Payload) {
    OutcomeFits(db, p) && p.finishedAt == db.tasks[p.task].finishedAt
  }

  ghost predicate HasHook(hooks: seq<Payload>, t: TaskId) {
    exists p :: p in hooks && p.task == t
  }

  ghost predicate PayloadsFit(db: Tables, hooks: seq<Payload>) {
    forall p :: p in hooks ==> PayloadFits(db, p)
  }

  ghost predicate OnePerTask(hooks: seq<Payload>) {
    forall i, j :: 0 <= i < j < |hooks| ==> hooks[i].task != hooks[j].task
  }

  ghost predicate OwedFit(db: Tables, hooks: seq<Payload>) {
    forall t :: t in db.tasks ==> (HasHook(hooks, t) <==> ClosedByWork(db, t) && db.tasks[t].hookUrl != "")
  }

  ghost predicate HooksFit(db: Tables, hooks: seq<Payload>) {
    PayloadsFit(db, hooks) && OnePerTask(hooks) && OwedFit(db, hooks)
  }

  lemma SucceededShards(db: Tables, t: TaskId)
    requires JointInv(db) && t in db.tasks && ClosedByWork(db, t)
    ensures AllTerminal(db, t)
    ensures AllSucceeded(db, t) <==> db.tasks[t].status.Succeeded?
  {
    assert TaskFits(db, t);
    forall x | IsShardOf(db, x, t)
      ensures db.shards[x].status.Terminal()
      ensures db.tasks[t].status.Succeeded? ==> db.shards[x].status.Succeeded?
    {
      assert PairInv(db, x);
    }
  }

  /** The event closes `t` through recompute or cancel. */
  ghost predicate Closes(db: Tables, e: Event, t: TaskId)
    requires Addressed(db, e)
  {
    || (e.Finish? && db.shards[e.shard].task == t && Closing(db, t, e.shard))
    || (e.Cancel? && e.task == t)
  }

  lemma HookShape(db: Tables, e: Event, t: TaskId)
    requires Enabled(db, e) && t in db.tasks
    ensures HookOf(db, e).Some? && HookOf(db, e).value.task == t <==> Closes(db, e, t) && db.tasks[t].hookUrl != ""
    ensures HookOf(db, e).Some? ==> HookOf(db, e).value.task in db.tasks
    ensures Closes(db, e, t) ==> !db.tasks[t].status.Terminal() && TaskAfter(db, e, t).status.Terminal()
    ensures HookOf(db, e).Some? && HookOf(db, e).value.task == t ==>
      var p, row := HookOf(db, e).value, TaskAfter(db, e, t);
      && p.status == row.status && p.lastError == row.lastError && p.finishedAt == row.finishedAt
      && p.tenant == row.tenant && p.url == row.hookUrl && (p.resultAvailable <==> row.status.Succeeded?)
  {
  }

  /** Apart from closing events only a poll, on a task with nothing but queued shards, ends a task. */
  lemma OnlyPollElse(db: Tables, e: Event, t: TaskId)
    requires Enabled(db, e) && t in db.tasks && !Closes(db, e, t) && !db.tasks[t].status.Terminal()
    ensures TaskAfter(db, e, t).status.Terminal() ==>
      e.Poll? && db.tasks[t].status.Pending? && TaskAfter(db, e, t).status.Failed?
  {
  }

  lemma ClosedStays(db: Tables, e: Event, db': Tables, t: TaskId)
    requires Enabled(db, e) && RowsAfter(db, e, db') && (e.Start? || e.Finish? ==> PairInv(db, e.shard))
    requires t in db.tasks && ClosedByWork(db, t) && AllTerminal(db, t) && HasShard(db, t)
    ensures ClosedByWork(db', t) && db'.tasks[t] == db.tasks[t]
  {
    TaskMoves(db, e, t);
    var x :| IsShardOf(db, x, t);
    ShardMoves(db, e, x);
    assert IsShardOf(db', x, t) && !db'.shards[x].status.Queued?;
  }

  lemma ClosingRow(db: Tables, e: Event, t: TaskId, x: ShardId)
    requires Enabled(db, e) && Closes(db, e, t) && IsShardOf(db, x, t) && !db.shards[x].status.Terminal()
    requires e.Finish? ==> x == e.shard
    ensures ShardAfter(db, e, x).status.Terminal()
  {
  }

  lemma ClosedNow(db: Tables, e: Event, db': Tables, t: TaskId)
    requires Enabled(db, e) && RowsAfter(db, e, db')
    requires t in db.tasks && Closes(db, e, t) && TaskFits(db, t)
    ensures !ClosedByWork(db, t) && ClosedByWork(db', t)
  {
    HookShape(db, e, t);
    var x :| IsShardOf(db, x, t) && !db.shards[x].status.Terminal() && (e.Finish? ==> x == e.shard) by {
      if e.Finish? { assert IsShardOf(db, e.shard, t) && !db.shards[e.shard].status.Terminal(); }
    }
    ClosingRow(db, e, t, x);
    SameShards(db, e, db', t, x);
    assert !db'.shards[x].status.Queued?;
  }

  lemma NotClosed(db: Tables, e: Event, db': Tables, t: TaskId)
    requires JointInv(db) && Enabled(db, e) && RowsAfter(db, e, db')
    requires t in db'.tasks && (t in db.tasks ==> !Closes(db, e, t) && !ClosedByWork(db, t))
    ensures !ClosedByWork(db', t)
  {
    if t in db.tasks && db'.tasks[t].status.Terminal() {
      assert e.Start? || e.Finish? ==> PairInv(db, e.shard);
      TaskMoves(db, e, t);
      if !db.tasks[t].status.Terminal() { OnlyPollElse(db, e, t); }
      forall x | IsShardOf(db', x, t)
        ensures db'.shards[x].status.Queued?
      {
        SameShards(db, e, db', t, x);
        assert PairInv(db, x);
        QuietRow(db, e, t, x);
      }
    }
  }

  /** A rejected task's queued shards stay queued: nothing leases from a failed task. */
  lemma QuietRow(db: Tables, e: Event, t: TaskId, x: ShardId)
    requires Enabled(db, e) && PairInv(db, x) && db.shards[x].task == t && db.shards[x].status.Queued?
    requires TaskAfter(db, e, t).status.Failed?
    ensures ShardAfter(db, e, x).status.Queued?
  {
  }

  lemma PayloadStays(db: Tables, e: Event, db': Tables, p: Payload)
    requires JointInv(db) && JointInv(db') && Enabled(db, e) && RowsAfter(db, e, db') && PayloadFits(db, p)
    ensures PayloadFits(db', p)
  {
    SucceededShards(db, p.task);
    assert TaskFits(db, p.task);
    assert e.Start? || e.Finish? ==> PairInv(db, e.shard);
    ClosedStays(db, e, db', p.task);
    SucceededShards(db', p.task);
  }

  lemma PayloadNow(db: Tables, e: Event, db': Tables)
    requires JointInv(db) && JointInv(db') && Enabled(db, e) && RowsAfter(db, e, db') && HookOf(db, e).Some?
    ensures PayloadFits(db', HookOf(db, e).value)
  {
    var p := HookOf(db, e).value;
    HookShape(db, e, p.task);
    FixedColumns(db, e, p.task, 0);
    assert TaskFits(db, p.task);
    ClosedNow(db, e, db', p.task);
    SucceededShards(db', p.task);
  }

  /** Which tasks have had their hook, before and after one event. */
  lemma OwedMoves(db: Tables, e: Event, db': Tables, t: TaskId)
    requires JointInv(db) && Enabled(db, e) && RowsAfter(db, e, db') && t in db'.tasks
    ensures ClosedByWork(db', t) <==> t in db.tasks && (ClosedByWork(db, t) || Closes(db, e, t))
    ensures t in db.tasks ==> !(ClosedByWork(db, t) && Closes(db, e, t)) && db'.tasks[t].hookUrl == db.tasks[t].hookUrl
  {
    if t in db.tasks {
      FixedColumns(db, e, t, 0);
      assert TaskFits(db, t);
      if Closes(db, e, t) {
        ClosedNow(db, e, db', t);
      } else if ClosedByWork(db, t) {
        SucceededShards(db, t);
        assert e.Start? || e.Finish? ==> PairInv(db, e.shard);
        ClosedStays(db, e, db', t);
      } else {
        NotClosed(db, e, db', t);
      }
    } else {
      NotClosed(db, e, db', t);
    }
  }

  lemma PayloadsStay(db: Tables, e: Event, db': Tables, hooks: seq<Payload>)
    requires JointInv(db) && JointInv(db') && Enabled(db, e) && RowsAfter(db, e, db') && PayloadsFit(db, hooks)
    ensures PayloadsFit(db', hooks)
  {
    forall p | p in hooks ensures PayloadFits(db', p) { PayloadStays(db, e, db', p); }
  }

  lemma PayloadsMore(db: Tables, hooks: seq<Payload>, hook: Option<Payload>)
    requires PayloadsFit(db, hooks) && (hook.Some? ==> PayloadFits(db, hook.value))
    ensures PayloadsFit(db, hooks + HookSeq(hook))
  {
  }

  lemma PayloadsStep(db: Tables, e: Event, db': Tables, hooks: seq<Payload>)
    requires JointInv(db) && JointInv(db') && Enabled(db, e) && RowsAfter(db, e, db') && PayloadsFit(db, hooks)
    ensures PayloadsFit(db', hooks + HookSeq(HookOf(db, e)))
  {
    PayloadsStay(db, e, db', hooks);
    if HookOf(db, e).Some? { PayloadNow(db, e, db'); }
    PayloadsMore(db', hooks, HookOf(db, e));
  }

  lemma OwedAt(db: Tables, e: Event, db': Tables, hooks: seq<Payload>, t: TaskId)
    requires JointInv(db) && Enabled(db, e) && RowsAfter(db, e, db') && t in db'.tasks
    requires PayloadsFit(db, hooks) && OwedFit(db, hooks)
    ensures HasHook(hooks + HookSeq(HookOf(db, e)), t) <==> ClosedByWork(db', t) && db'.tasks[t].hookUrl != ""
    ensures HookOf(db, e).Some? && HookOf(db, e).value.task == t ==> !HasHook(hooks, t)
  {
    OwedMoves(db, e, db', t);
    HasHookSplit(hooks, HookOf(db, e), t);
    if t in db.tasks {
      HookShape(db, e, t);
    } else {
      NewHasNoHook(db, e, hooks, t);
    }
  }

  lemma NewHasNoHook(db: Tables, e: Event, hooks: seq<Payload>, t: TaskId)
    requires Enabled(db, e) && t !in db.tasks && PayloadsFit(db, hooks)
    ensures !HasHook(hooks, t) && !(HookOf(db, e).Some? && HookOf(db, e).value.task == t)
  {
  }

  lemma OwedStep(db: Tables, e: Event, db': Tables, hooks: seq<Payload>)
    requires JointInv(db) && Enabled(db, e) && RowsAfter(db, e, db') && HooksFit(db, hooks)
    ensures OwedFit(db', hooks + HookSeq(HookOf(db, e)))
    ensures OnePerTask(hooks + HookSeq(HookOf(db, e)))
  {
    var now := HookOf(db, e);
    forall t | t in db'.tasks
      ensures HasHook(hooks + HookSeq(now), t) <==> ClosedByWork(db', t) && db'.tasks[t].hookUrl != ""
    {
      OwedAt(db, e, db', hooks, t);
    }
    if now.Some? {
      HookTaskKnown(db, e);
      OwedAt(db, e, db', hooks, now.value.task);
      OnePerTaskMore(hooks, now.value);
    }
  }

  lemma HookTaskKnown(db: Tables, e: Event)
    requires Addressed(db, e) && HookOf(db, e).Some?
    ensures HookOf(db, e).value.task in db.tasks
  {
  }

  lemma OnePerTaskMore(hooks: seq<Payload>, p: Payload)
    requires OnePerTask(hooks) && !HasHook(hooks, p.task)
    ensures OnePerTask(hooks + [p])
  {
    forall i, j | 0 <= i < j < |hooks + [p]| ensures (hooks + [p])[i].task != (hooks + [p])[j].task {
      assert i < |hooks| ==> hooks[i] in hooks;
    }
  }

  lemma HookStep(db: Tables, e: Event, db': Tables, hooks: seq<Payload>)
    requires JointInv(db) && JointInv(db') && Enabled(db, e) && RowsAfter(db, e, db') && HooksFit(db, hooks)
    ensures HooksFit(db', hooks + HookSeq(HookOf(db, e)))
  {
    PayloadsStep(db, e, db', hooks);
    OwedStep(db, e, db', hooks);
  }

  lemma HasHookSplit(hooks: seq<Payload>, now: Option<Payload>, t: TaskId)
    ensures HasHook(hooks + HookSeq(now), t) <==> HasHook(hooks, t) || (now.Some? && now.value.task == t)
  {
    if HasHook(hooks, t) {
      var p :| p in hooks && p.task == t;
      assert p in hooks + HookSeq(now);
    }
    if now.Some? && now.value.task == t {
      assert now.value in hooks + HookSeq(now);
    }
  }

  /**
   Over every run each task owes at most one hook payload, exactly one once it
   has a URL and recompute or cancel has closed it, and the payload tells the
   task's permanent outcome.
   */
  lemma {:induction false} HookLaw(log: seq<Event>)
    requires Legal(log)
    ensures HooksFit(Exec(log), Hooks(log))
  {
    if |log| > 0 {
      LastStep(log);
      HookLaw(Front(log));
      HookStep(Exec(Front(log)), Last(log), Exec(log), Hooks(Front(log)));
    }
  }
}
