/**
 Rely and guarantee for the statement-level system: what a process holding some
 row locks may count on while other processes commit.
 */
module Rely {
  import opened Rows
  import opened Ledger
  import opened LedgerLaws

  /** The task was once leasable: it is leasable still, or was closed by recompute or cancel. */
  ghost predicate Live(db: Tables, t: TaskId) {
    t in db.tasks && (db.tasks[t].status.Leasable() || ClosedByWork(db, t))
  }

  /** What the lock on its task protects of a shard row: terminal or not, and its timestamps. */
  predicate Guarded(a: Shard, b: Shard) {
    (a.status.Terminal() <==> b.status.Terminal()) && a.startedAt == b.startedAt && a.finishedAt == b.finishedAt
  }

  ghost predicate TasksMove(db: Tables, db': Tables) {
    forall t :: t in db.tasks ==> t in db'.tasks && TaskMove(db.tasks[t], db'.tasks[t])
  }

  ghost predicate ShardsMove(db: Tables, db': Tables) {
    && (forall x :: x in db.shards ==> x in db'.shards && ShardMove(db.shards[x], db'.shards[x]))
    && (forall x :: x in db'.shards && x !in db.shards ==> db'.shards[x].task !in db.tasks)
  }

  ghost predicate LocksHold(db: Tables, db': Tables, tl: set<TaskId>, sl: set<ShardId>) {
    && (forall t :: t in tl && t in db.tasks ==> t in db'.tasks && db'.tasks[t] == db.tasks[t])
    && (forall x :: x in sl && x in db.shards ==> x in db'.shards && db'.shards[x] == db.shards[x])
    && (forall x :: x in db.shards && db.shards[x].task in tl ==> x in db'.shards && Guarded(db.shards[x], db'.shards[x]))
  }

  ghost predicate LiveStays(db: Tables, db': Tables) {
    forall t :: Live(db, t) ==> Live(db', t)
  }

  ghost predicate TenantsStay(db: Tables, db': Tables) {
    forall n :: n in db.tenants ==> n in db'.tenants && db'.tenants[n] == db.tenants[n]
  }

  /** A committed change made by others while a process holds the locks `tl` and `sl`. */
  ghost predicate Env(db: Tables, db': Tables, tl: set<TaskId>, sl: set<ShardId>) {
    && TasksMove(db, db') && ShardsMove(db, db') && TenantsStay(db, db')
    && LocksHold(db, db', tl, sl) && LiveStays(db, db')
  }

  /** The event writes no row locked in `tl` or `sl`, and finishes no shard of a task in `tl`. */
  ghost predicate Undisturbed(db: Tables, e: Event, tl: set<TaskId>, sl: set<ShardId>)
    requires Addressed(db, e)
  {
    match e
    case Poll(t, _, _) => t !in tl
    case Lease(s, _, _, _) => s !in sl && (db.tasks[db.shards[s].task].status.WaitingForAgents? ==> db.shards[s].task !in tl)
    case Start(s, _, _) => s !in sl && db.shards[s].task !in tl
    case Finish(s, _, _, _, _) => s !in sl && db.shards[s].task !in tl
    case Cancel(t, _, _, _) => t !in tl && forall x :: x in sl && IsShardOf(db, x, t) ==> db.shards[x].status.Terminal()
    case Rollback(s, _) => s !in sl
    case _ => true
  }

  lemma KeepsLockedTask(db: Tables, e: Event, tl: set<TaskId>, sl: set<ShardId>, t: TaskId)
    requires Enabled(db, e) && Undisturbed(db, e, tl, sl) && t in tl && t in db.tasks
    ensures TaskAfter(db, e, t) == db.tasks[t]
  {
  }

  lemma KeepsLockedShard(db: Tables, e: Event, tl: set<TaskId>, sl: set<ShardId>, x: ShardId)
    requires Enabled(db, e) && Undisturbed(db, e, tl, sl) && x in db.shards
    ensures x in sl ==> ShardAfter(db, e, x) == db.shards[x]
    ensures db.shards[x].task in tl ==> Guarded(db.shards[x], ShardAfter(db, e, x))
  {
    assert IsShardOf(db, x, db.shards[x].task);
  }

  lemma KeepsLive(db: Tables, e: Event, db': Tables, t: TaskId)
    requires JointInv(db) && Enabled(db, e) && RowsAfter(db, e, db') && Live(db, t)
    ensures Live(db', t)
  {
    OwedMoves(db, e, db', t);
    if !ClosedByWork(db', t) {
      assert e.Start? || e.Finish? ==> PairInv(db, e.shard);
      TaskMoves(db, e, t);
      OnlyPollElse(db, e, t);
    }
  }

  lemma EventTasksMove(db: Tables, e: Event, db': Tables)
    requires Enabled(db, e) && RowsAfter(db, e, db') && (e.Start? || e.Finish? ==> PairInv(db, e.shard))
    ensures TasksMove(db, db')
  {
    forall t | t in db.tasks ensures TaskMove(db.tasks[t], db'.tasks[t]) { TaskMoves(db, e, t); }
  }

  lemma EventShardsMove(db: Tables, e: Event, db': Tables)
    requires Enabled(db, e) && RowsAfter(db, e, db')
    ensures ShardsMove(db, db')
  {
    forall x | x in db.shards ensures ShardMove(db.shards[x], db'.shards[x]) { ShardMoves(db, e, x); }
  }

  lemma EventLocksHold(db: Tables, e: Event, db': Tables, tl: set<TaskId>, sl: set<ShardId>)
    requires Enabled(db, e) && RowsAfter(db, e, db') && Undisturbed(db, e, tl, sl)
    ensures LocksHold(db, db', tl, sl)
  {
    forall t | t in tl && t in db.tasks ensures db'.tasks[t] == db.tasks[t] { KeepsLockedTask(db, e, tl, sl, t); }
    forall x | x in db.shards
      ensures x in sl ==> db'.shards[x] == db.shards[x]
      ensures db.shards[x].task in tl ==> Guarded(db.shards[x], db'.shards[x])
    {
      KeepsLockedShard(db, e, tl, sl, x);
    }
  }

  /** Guarantee: every event is a harmless environment step for whoever's locks it respects. */
  lemma EventEnv(db: Tables, e: Event, db': Tables, tl: set<TaskId>, sl: set<ShardId>)
    requires JointInv(db) && Enabled(db, e) && RowsAfter(db, e, db') && Undisturbed(db, e, tl, sl)
    ensures Env(db, db', tl, sl)
  {
    assert e.Start? || e.Finish? ==> PairInv(db, e.shard);
    EventTasksMove(db, e, db');
    EventShardsMove(db, e, db');
    EventLocksHold(db, e, db', tl, sl);
    forall t | Live(db, t) ensures Live(db', t) { KeepsLive(db, e, db', t); }
  }

  /******* What survives such a step *******/

  lemma ShardsStay(db: Tables, db': Tables, tl: set<TaskId>, sl: set<ShardId>, t: TaskId, x: ShardId)
    requires Env(db, db', tl, sl) && t in db.tasks
    ensures IsShardOf(db', x, t) <==> IsShardOf(db, x, t)
    ensures IsShardOf(db, x, t) && t in tl ==> Guarded(db.shards[x], db'.shards[x])
    ensures IsShardOf(db, x, t) && db.shards[x].status.Terminal() ==> db'.shards[x] == db.shards[x]
  {
    assert x in db.shards ==> x in db'.shards && ShardMove(db.shards[x], db'.shards[x]);
  }

  lemma OthersStay(db: Tables, db': Tables, tl: set<TaskId>, sl: set<ShardId>, t: TaskId, s: ShardId)
    requires Env(db, db', tl, sl) && t in db.tasks && t in tl
    ensures OthersActive(db', t, s) <==> OthersActive(db, t, s)
    ensures OthersFailed(db', t, s) <==> OthersFailed(db, t, s)
  {
    forall x
      ensures IsShardOf(db', x, t) <==> IsShardOf(db, x, t)
      ensures IsShardOf(db, x, t) ==> (db'.shards[x].status.Terminal() <==> db.shards[x].status.Terminal())
      ensures IsShardOf(db, x, t) ==> (db'.shards[x].status.Failed? <==> db.shards[x].status.Failed?)
    {
      ShardsStay(db, db', tl, sl, t, x);
    }
  }

  lemma FreshStays(db: Tables, db': Tables, tl: set<TaskId>, sl: set<ShardId>, t: TaskId, at: Time)
    requires Env(db, db', tl, sl) && t in db.tasks && t in tl && Fresh(db, t, at)
    ensures Fresh(db', t, at)
  {
    forall x | IsShardOf(db', x, t)
      ensures NotAfter(db'.shards[x].startedAt, Some(at)) && NotAfter(db'.shards[x].finishedAt, Some(at))
    {
      ShardsStay(db, db', tl, sl, t, x);
    }
  }

  lemma BlameStays(db: Tables, db': Tables, tl: set<TaskId>, sl: set<ShardId>, t: TaskId, s: ShardId, row: Shard, x: ShardId)
    requires Env(db, db', tl, sl) && t in db.tasks && t in tl && s in db.shards && s in sl
    ensures Blames(WithShard(db', s, row), x, t) <==> Blames(WithShard(db, s, row), x, t)
    ensures Blames(WithShard(db, s, row), x, t) ==>
      WithShard(db', s, row).shards[x] == WithShard(db, s, row).shards[x]
  {
    ShardsStay(db, db', tl, sl, t, x);
  }

  lemma ResolvedStays(db: Tables, db': Tables, tl: set<TaskId>, sl: set<ShardId>, t: TaskId, s: ShardId, row: Shard,
                      fallback: string, note: string)
    requires Env(db, db', tl, sl) && t in db.tasks && t in tl && s in db.shards && s in sl
    requires Resolved(WithShard(db, s, row), t, fallback, note)
    ensures Resolved(WithShard(db', s, row), t, fallback, note)
  {
    var a, b := WithShard(db, s, row), WithShard(db', s, row);
    forall x
      ensures Blames(b, x, t) <==> Blames(a, x, t)
      ensures Blames(a, x, t) ==> b.shards[x] == a.shards[x]
    {
      BlameStays(db, db', tl, sl, t, s, row, x);
    }
    if x :| Blames(a, x, t) && a.shards[x].lastError == note &&
            forall y :: Blames(a, y, t) ==> NotAfter(a.shards[y].finishedAt, a.shards[x].finishedAt) {
      assert Blames(b, x, t);
    }
  }
}
