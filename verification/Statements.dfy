/**
 Every statement carries a process's knowledge forward: from the assertion
 before it to the assertion after it.
 */
module Statements {
  import opened Rows
  import opened Ledger
  import opened Interleaving
  import opened Queue
  import opened Assertions

  /** The clock is past every recorded time. */
  ghost predicate TimesBounded(db: Tables, now: Time) {
    && (forall t :: t in db.tasks ==> NotAfter(db.tasks[t].startedAt, Some(now)))
    && (forall x :: x in db.shards ==>
        NotAfter(db.shards[x].startedAt, Some(now)) && NotAfter(db.shards[x].finishedAt, Some(now)))
  }

  /** The result of the process's next statement. */
  ghost function After(db: Tables, now: Time, p: Proc, luck: Luck): Result {
    Advance(db, now, p, WithLocks(db, p, luck.pick), luck)
  }

  ghost predicate ResultOk(db: Tables, now: Time, ids: map<AgentId, Identity>, res: Result) {
    res.Continue? ==> ProcOk(db, now, ids, res.proc)
  }

  lemma ViewOfWrites(db: Tables, x: Txn)
    ensures x.tasks == map[] ==> View(db, x).tasks == db.tasks
    ensures x.shards == map[] ==> View(db, x).shards == db.shards
    ensures View(db, x).tenants == db.tenants
    ensures x.tasks == map[] && x.shards == map[] ==> View(db, x) == db
  {
    assert db.tasks + map[] == db.tasks;
    assert db.shards + map[] == db.shards;
  }

  lemma ViewOfShard(db: Tables, x: Txn, s: ShardId, row: Shard)
    requires x.tasks == map[] && x.shards == map[s := row]
    ensures View(db, x) == WithShard(db, s, row)
  {
    ViewOfWrites(db, x);
    assert db.shards + map[s := row] == db.shards[s := row];
  }

  lemma FreshNow(db: Tables, now: Time, t: TaskId)
    requires TimesBounded(db, now) && t in db.tasks
    ensures Fresh(db, t, now)
  {
  }

  /******* Reports *******/

  lemma StepReadShard(db: Tables, now: Time, ids: map<AgentId, Identity>, p: Proc, luck: Luck)
    requires p.prog.ReadShard? && ProcOk(db, now, ids, p)
    ensures ResultOk(db, now, ids, After(db, now, p, luck))
  {
    ViewOfWrites(db, p.txn);
  }

  lemma StepLockTask(db: Tables, now: Time, ids: map<AgentId, Identity>, p: Proc, luck: Luck)
    requires p.prog.LockTask? && ProcOk(db, now, ids, p)
    ensures ResultOk(db, now, ids, After(db, now, p, luck))
  {
    ViewOfWrites(db, p.txn);
  }

  lemma StepMoveShard(db: Tables, now: Time, ids: map<AgentId, Identity>, p: Proc, luck: Luck)
    requires p.prog.MoveShard? && ProcOk(db, now, ids, p) && TimesBounded(db, now)
    ensures ResultOk(db, now, ids, After(db, now, p, luck))
  {
    ViewOfWrites(db, p.txn);
    FreshNow(db, now, p.prog.t);
  }

  lemma StepWriteOutput(db: Tables, now: Time, ids: map<AgentId, Identity>, p: Proc, luck: Luck)
    requires p.prog.WriteOutput? && ProcOk(db, now, ids, p)
    ensures ResultOk(db, now, ids, After(db, now, p, luck))
  {
    var s := p.prog.r.shard;
    ViewOfShard(db, p.txn, s, SucceedRow(db.shards[s], p.prog.at));
    assert p.txn.shards[s := FinishRow(db.shards[s], p.prog.r.ask.outcome, p.prog.at)]
        == map[s := FinishRow(db.shards[s], p.prog.r.ask.outcome, p.prog.at)];
  }

  lemma AfterMarkTask(db: Tables, now: Time, p: Proc, luck: Luck)
    requires p.prog.MarkTask? && p.txn.tasks == map[] && p.txn.taskLocks == {p.prog.t}
    requires p.prog.t in db.tasks && !db.tasks[p.prog.t].status.Cancelled?
    ensures After(db, now, p, luck) == Continue(Proc(PutTask(p.txn, p.prog.t, RunSeen(db.tasks[p.prog.t], p.prog.seen, p.prog.r.now)),
                                                     Commit(Some(Start(p.prog.r.shard, p.prog.r.now, p.prog.at)), None, None)))
  {
    ViewOfWrites(db, p.txn);
    assert WithLocks(db, p, luck.pick) == p.txn;
  }

  lemma MarkWritten(db: Tables, x: Txn, r: Report, t: TaskId, seen: Task, at: Time)
    requires MarkTaskOk(db, x, r, t, seen, at) && r.now <= at
    ensures StartOk(db, PutTask(x, t, RunSeen(db.tasks[t], seen, r.now)), r.shard, r.now, at)
  {
  }

  lemma StepMarkTask(db: Tables, now: Time, ids: map<AgentId, Identity>, p: Proc, luck: Luck)
    requires p.prog.MarkTask? && ProcOk(db, now, ids, p)
    ensures ResultOk(db, now, ids, After(db, now, p, luck))
  {
    MarkWritten(db, p.txn, p.prog.r, p.prog.t, p.prog.seen, p.prog.at);
    AfterMarkTask(db, now, p, luck);
  }

  /******* Recompute *******/

  /** Recompute only touches rows the report has locked. */
  lemma LocksHeld(db: Tables, p: Proc, pick: ShardId)
    requires InRecompute(p.prog) && p.txn.taskLocks == {p.prog.t}
    ensures WithLocks(db, p, pick) == p.txn
  {
  }

  lemma FinishOpen(db: Tables, x: Txn, r: Report, t: TaskId, at: Time)
    requires ReloadOk(db, x, r, t, at) && !Closing(db, t, r.shard)
    ensures FinishOk(db, x, r.shard, r.ask.outcome, at, at, "", None)
  {
  }

  lemma FinishClosed(db: Tables, x: Txn, r: Report, t: TaskId, at: Time, closedAt: Time, failed: bool, note: string)
    requires CloseOk(db, x, r, t, at, failed, note) && at <= closedAt
    ensures var row := Verdict(db.tasks[t], failed, note, closedAt);
      FinishOk(db, PutTask(x, t, row), r.shard, r.ask.outcome, at, closedAt, note, NewPayload(t, row, !failed))
  {
  }

  lemma StepReload(db: Tables, now: Time, ids: map<AgentId, Identity>, p: Proc, luck: Luck)
    requires p.prog.Reload? && ProcOk(db, now, ids, p)
    ensures ResultOk(db, now, ids, After(db, now, p, luck))
  {
    ViewOfWrites(db, p.txn);
    if db.tasks[p.prog.t].status.Terminal() {
      FinishOpen(db, p.txn, p.prog.r, p.prog.t, p.prog.at);
      FinishCommitOk(db, now, ids, p.txn, p.prog.r, p.prog.at, p.prog.at, "", None);
    }
    LocksHeld(db, p, luck.pick);
  }

  /** What the two counts see: the committed shards, with the reported one already moved. */
  lemma CountsSee(db: Tables, s: ShardId, t: TaskId, o: Outcome, at: Time)
    requires s in db.shards && db.shards[s].task == t
    ensures var v := WithShard(db, s, FinishRow(db.shards[s], o, at));
      (HasActive(v, t) <==> OthersActive(db, t, s)) && (HasFailed(v, t) <==> Fails(db, t, s, o))
  {
    var v := WithShard(db, s, FinishRow(db.shards[s], o, at));
    assert forall x :: IsShardOf(v, x, t) <==> IsShardOf(db, x, t);
    assert IsShardOf(v, s, t);
    if OthersActive(db, t, s) {
      var x :| IsShardOf(db, x, t) && x != s && !db.shards[x].status.Terminal();
      assert IsShardOf(v, x, t) && !v.shards[x].status.Terminal();
    }
    if OthersFailed(db, t, s) {
      var x :| IsShardOf(db, x, t) && x != s && db.shards[x].status.Failed?;
      assert IsShardOf(v, x, t) && v.shards[x].status.Failed?;
    }
  }

  lemma StepCountActive(db: Tables, now: Time, ids: map<AgentId, Identity>, p: Proc, luck: Luck)
    requires p.prog.CountActive? && ProcOk(db, now, ids, p)
    ensures ResultOk(db, now, ids, After(db, now, p, luck))
  {
    var s, t, o, at := p.prog.r.shard, p.prog.t, p.prog.r.ask.outcome, p.prog.at;
    ViewOfShard(db, p.txn, s, FinishRow(db.shards[s], o, at));
    CountsSee(db, s, t, o, at);
    if OthersActive(db, t, s) {
      FinishOpen(db, p.txn, p.prog.r, t, at);
      FinishCommitOk(db, now, ids, p.txn, p.prog.r, at, at, "", None);
    }
    LocksHeld(db, p, luck.pick);
  }

  lemma StepCountFailed(db: Tables, now: Time, ids: map<AgentId, Identity>, p: Proc, luck: Luck)
    requires p.prog.CountFailed? && ProcOk(db, now, ids, p)
    ensures ResultOk(db, now, ids, After(db, now, p, luck))
  {
    var s, t, o, at := p.prog.r.shard, p.prog.t, p.prog.r.ask.outcome, p.prog.at;
    ViewOfShard(db, p.txn, s, FinishRow(db.shards[s], o, at));
    CountsSee(db, s, t, o, at);
  }

  lemma AfterResolve(db: Tables, now: Time, p: Proc, luck: Luck)
    requires p.prog.Resolve? && p.txn.taskLocks == {p.prog.t}
    ensures After(db, now, p, luck) ==
      Continue(Proc(p.txn, CloseIt(p.prog.r, p.prog.t, p.prog.at, p.prog.closedAt, true, luck.note)))
  {
    LocksHeld(db, p, luck.pick);
  }

  lemma StepResolve(db: Tables, now: Time, ids: map<AgentId, Identity>, p: Proc, luck: Luck)
    requires p.prog.Resolve? && ProcOk(db, now, ids, p) && Choice(db, p, luck)
    ensures ResultOk(db, now, ids, After(db, now, p, luck))
  {
    var s, o, at := p.prog.r.shard, p.prog.r.ask.outcome, p.prog.at;
    ViewOfShard(db, p.txn, s, FinishRow(db.shards[s], o, at));
    AfterResolve(db, now, p, luck);
  }

  function Verdict(t: Task, failed: bool, note: string, at: Time): Task {
    CloseTask(t, if failed then TaskStatus.Failed else TaskStatus.Succeeded, note, at)
  }

  lemma AfterCloseIt(db: Tables, now: Time, p: Proc, luck: Luck)
    requires p.prog.CloseIt? && p.txn.tasks == map[] && p.txn.taskLocks == {p.prog.t}
    requires p.prog.t in db.tasks && !db.tasks[p.prog.t].status.Terminal()
    ensures var row := Verdict(db.tasks[p.prog.t], p.prog.failed, p.prog.note, p.prog.closedAt);
      After(db, now, p, luck) == Continue(Proc(PutTask(p.txn, p.prog.t, row),
        FinishCommit(p.prog.r, p.prog.at, p.prog.closedAt, p.prog.note, NewPayload(p.prog.t, row, !p.prog.failed))))
  {
    ViewOfWrites(db, p.txn);
    LocksHeld(db, p, luck.pick);
  }

  lemma FinishCommitOk(db: Tables, now: Time, ids: map<AgentId, Identity>, x: Txn, r: Report, at: Time, closedAt: Time, note: string, hook: Option<Payload>)
    requires r.ask.AskEnd? && closedAt <= now && FinishOk(db, x, r.shard, r.ask.outcome, at, closedAt, note, hook)
    ensures ProcOk(db, now, ids, Proc(x, FinishCommit(r, at, closedAt, note, hook)))
  {
  }

  lemma StepCloseIt(db: Tables, now: Time, ids: map<AgentId, Identity>, p: Proc, luck: Luck)
    requires p.prog.CloseIt? && ProcOk(db, now, ids, p)
    ensures ResultOk(db, now, ids, After(db, now, p, luck))
  {
    var r, t, at, closedAt, failed, note := p.prog.r, p.prog.t, p.prog.at, p.prog.closedAt, p.prog.failed, p.prog.note;
    var row := Verdict(db.tasks[t], failed, note, closedAt);
    FinishClosed(db, p.txn, r, t, at, closedAt, failed, note);
    FinishCommitOk(db, now, ids, PutTask(p.txn, t, row), r, at, closedAt, note, NewPayload(t, row, !failed));
    AfterCloseIt(db, now, p, luck);
  }

  /******* Leases *******/

  lemma StepLeaseSelect(db: Tables, now: Time, ids: map<AgentId, Identity>, p: Proc, luck: Luck)
    requires p.prog.LeaseSelect? && ProcOk(db, now, ids, p) && Choice(db, p, luck)
    ensures ResultOk(db, now, ids, After(db, now, p, luck))
  {
    ViewOfWrites(db, p.txn);
  }

  lemma StepLeaseLoad(db: Tables, now: Time, ids: map<AgentId, Identity>, p: Proc, luck: Luck)
    requires p.prog.LeaseLoad? && ProcOk(db, now, ids, p)
    ensures ResultOk(db, now, ids, After(db, now, p, luck))
  {
    ViewOfWrites(db, p.txn);
  }

  lemma StepLeasePromote(db: Tables, now: Time, ids: map<AgentId, Identity>, p: Proc, luck: Luck)
    requires p.prog.LeasePromote? && ProcOk(db, now, ids, p)
    ensures ResultOk(db, now, ids, After(db, now, p, luck))
  {
    ViewOfWrites(db, p.txn);
  }

  /** A promotion that really updated the task row finds the shard still queued. */
  lemma PromotedFindsQueued(db: Tables, now: Time, ids: map<AgentId, Identity>, p: Proc)
    requires p.prog.LeaseCas? && p.prog.promoted && ProcOk(db, now, ids, p) && PairInv(db, p.prog.s)
    ensures p.prog.s in db.shards && db.shards[p.prog.s].status.Queued? && WantsShard(db, p, 0) == Some(p.prog.s)
  {
    ViewOfWrites(db, p.txn);
  }

  lemma LeaseWritten(db: Tables, x: Txn, q: LeaseCall, s: ShardId, t: TaskId, promoted: bool, seenDb: Tables)
    requires LeaseCasOk(db, x, q, s, t, promoted, seenDb) && db.shards[s].status.Queued?
    ensures LeaseOk(db, PutShard(x.(shardLocks := x.shardLocks + {s}), s, LeaseRow(db.shards[s], q.agent)),
                    s, q.agent, q.tenant, q.backend)
  {
  }

  lemma AfterLeaseCas(db: Tables, now: Time, p: Proc, luck: Luck)
    requires p.prog.LeaseCas? && p.txn.shards == map[] && p.prog.s in db.shards
    ensures var s, q, x := p.prog.s, p.prog.q, p.txn;
      After(db, now, p, luck) ==
        if db.shards[s].status.Queued?
        then Continue(Proc(PutShard(x.(shardLocks := x.shardLocks + {s}), s, LeaseRow(db.shards[s], q.agent)),
                           Commit(Some(Lease(s, q.agent, q.tenant, q.backend)), None, Some(Handover(s, p.prog.t, p.prog.status)))))
        else Retry(x, q, p.prog.tries)
  {
    ViewOfWrites(db, p.txn);
    assert WithLocks(db, p, luck.pick) ==
      if db.shards[p.prog.s].status.Queued? then p.txn.(shardLocks := p.txn.shardLocks + {p.prog.s}) else p.txn;
  }

  lemma LeaseCommitPoint(db: Tables, now: Time, ids: map<AgentId, Identity>, x: Txn, q: LeaseCall, s: ShardId, t: TaskId, status: TaskStatus)
    requires LeaseOk(db, x, s, q.agent, q.tenant, q.backend) && KnownAgent(ids, q) && !status.WaitingForAgents?
    ensures ProcOk(db, now, ids, Proc(x, Commit(Some(Lease(s, q.agent, q.tenant, q.backend)), None, Some(Handover(s, t, status)))))
  {
  }

  /** Only a task that has left WAITING_FOR_AGENTS loses a shard, so the losing try holds and wrote nothing. */
  lemma LoserIdle(db: Tables, x: Txn, q: LeaseCall, s: ShardId, t: TaskId, promoted: bool, seenDb: Tables)
    requires LeaseCasOk(db, x, q, s, t, promoted, seenDb) && PairInv(db, s) && !db.shards[s].status.Queued?
    ensures x == IDLE
  {
  }

  lemma LeaseCasStep(db: Tables, now: Time, ids: map<AgentId, Identity>, p: Proc, luck: Luck)
    requires p.prog.LeaseCas? && PairInv(db, p.prog.s) && KnownAgent(ids, p.prog.q) && !p.prog.status.WaitingForAgents?
    requires LeaseCasOk(db, p.txn, p.prog.q, p.prog.s, p.prog.t, p.prog.promoted, p.prog.seenDb)
    ensures ResultOk(db, now, ids, After(db, now, p, luck))
  {
    var x, q, s, t := p.txn, p.prog.q, p.prog.s, p.prog.t;
    AfterLeaseCas(db, now, p, luck);
    if db.shards[s].status.Queued? {
      LeaseWritten(db, x, q, s, t, p.prog.promoted, p.prog.seenDb);
      LeaseCommitPoint(db, now, ids, PutShard(x.(shardLocks := x.shardLocks + {s}), s, LeaseRow(db.shards[s], q.agent)), q, s, t, p.prog.status);
    } else {
      LoserIdle(db, x, q, s, t, p.prog.promoted, p.prog.seenDb);
    }
  }

  lemma StepLeaseCas(db: Tables, now: Time, ids: map<AgentId, Identity>, p: Proc, luck: Luck)
    requires p.prog.LeaseCas? && ProcOk(db, now, ids, p) && PairInv(db, p.prog.s)
    ensures ResultOk(db, now, ids, After(db, now, p, luck))
  {
    LeaseCasStep(db, now, ids, p, luck);
  }

  /******* Cancels *******/

  lemma StepCancelTask(db: Tables, now: Time, ids: map<AgentId, Identity>, p: Proc, luck: Luck)
    requires p.prog.CancelTask? && ProcOk(db, now, ids, p) && TimesBounded(db, now)
    ensures ResultOk(db, now, ids, After(db, now, p, luck))
  {
    ViewOfWrites(db, p.txn);
    FreshNow(db, now, p.prog.t);
  }

  ghost function OpenShards(db: Tables, t: TaskId): set<ShardId> {
    set y | y in db.shards && db.shards[y].task == t && !db.shards[y].status.Terminal()
  }

  lemma AfterScan(db: Tables, now: Time, p: Proc, luck: Luck)
    requires p.prog.CancelScan? && p.txn.shards == map[]
    ensures After(db, now, p, luck) ==
      Continue(Proc(p.txn, CancelShards(p.prog.t, p.prog.tenant, p.prog.seen, p.prog.at, now, OpenShards(db, p.prog.t))))
  {
    ViewOfWrites(db, p.txn);
    assert WithLocks(db, p, luck.pick) == p.txn;
  }

  lemma ScanOk(db: Tables, x: Txn, t: TaskId, tenant: TenantId, seen: Task, at: Time, now: Time)
    requires Cancelling(db, x, t, tenant, seen, at) && x.shardLocks == {} && x.shards == map[] && at <= now
    ensures CancelShardsOk(db, x, t, tenant, seen, at, now, OpenShards(db, t))
  {
    assert forall y :: y in OpenShards(db, t) <==> OpenShard(db, t, y);
    assert CancelSome(db, t, now, OpenShards(db, t)) == map[];
  }

  /** Where a bulk cancel stands, as the process knows it. */
  lemma CancelShardsPoint(db: Tables, now: Time, ids: map<AgentId, Identity>, x: Txn, t: TaskId, tenant: TenantId, seen: Task,
                          at: Time, shardsAt: Time, todo: set<ShardId>)
    requires CancelShardsOk(db, x, t, tenant, seen, at, shardsAt, todo) && shardsAt <= now && seen.finishedAt.None?
    ensures ProcOk(db, now, ids, Proc(x, CancelShards(t, tenant, seen, at, shardsAt, todo)))
  {
  }

  lemma ScanStep(db: Tables, now: Time, ids: map<AgentId, Identity>, p: Proc, luck: Luck)
    requires p.prog.CancelScan? && p.txn.shardLocks == {} && p.txn.shards == map[] && p.prog.at <= now && p.prog.seen.finishedAt.None?
    requires Cancelling(db, p.txn, p.prog.t, p.prog.tenant, p.prog.seen, p.prog.at)
    ensures ResultOk(db, now, ids, After(db, now, p, luck))
  {
    ScanOk(db, p.txn, p.prog.t, p.prog.tenant, p.prog.seen, p.prog.at, now);
    CancelShardsPoint(db, now, ids, p.txn, p.prog.t, p.prog.tenant, p.prog.seen, p.prog.at, now, OpenShards(db, p.prog.t));
    AfterScan(db, now, p, luck);
  }

  lemma StepCancelScan(db: Tables, now: Time, ids: map<AgentId, Identity>, p: Proc, luck: Luck)
    requires p.prog.CancelScan? && ProcOk(db, now, ids, p)
    ensures ResultOk(db, now, ids, After(db, now, p, luck))
  {
    ScanStep(db, now, ids, p, luck);
  }

  lemma CancelOneMore(db: Tables, t: TaskId, at: Time, todo: set<ShardId>, y: ShardId)
    requires y in todo && OpenShard(db, t, y)
    ensures CancelSome(db, t, at, todo - {y}) == CancelSome(db, t, at, todo)[y := CancelRow(db.shards[y], at)]
  {
  }

  lemma CancelMore(db: Tables, x: Txn, t: TaskId, tenant: TenantId, seen: Task, at: Time, shardsAt: Time, todo: set<ShardId>, y: ShardId)
    requires CancelShardsOk(db, x, t, tenant, seen, at, shardsAt, todo) && y in todo
    ensures CancelShardsOk(db, PutShard(x.(shardLocks := x.shardLocks + {y}), y, CancelRow(db.shards[y], shardsAt)),
                           t, tenant, seen, at, shardsAt, todo - {y})
  {
    CancelOneMore(db, t, shardsAt, todo, y);
  }

  lemma CancelDone(db: Tables, x: Txn, t: TaskId, tenant: TenantId, seen: Task, at: Time, shardsAt: Time)
    requires CancelShardsOk(db, x, t, tenant, seen, at, shardsAt, {}) && seen.finishedAt.None?
    ensures var payload := NewPayload(t, seen.(status := TaskStatus.Cancelled, lastError := ""), false);
      CancelOk(db, x, t, tenant, at, shardsAt, if payload.Some? then Some(Refresh(t, payload.value)) else None)
  {
  }

  lemma AfterLastCancel(db: Tables, now: Time, p: Proc, luck: Luck)
    requires p.prog.CancelShards? && p.prog.todo == {}
    ensures var t, payload := p.prog.t, NewPayload(p.prog.t, p.prog.seen.(status := TaskStatus.Cancelled, lastError := ""), false);
      After(db, now, p, luck) ==
        Continue(Proc(p.txn, Commit(Some(Cancel(t, p.prog.tenant, p.prog.at, p.prog.shardsAt)), None,
                                    if payload.Some? then Some(Refresh(t, payload.value)) else None)))
  {
    assert WithLocks(db, p, luck.pick) == p.txn;
  }

  lemma AfterOneCancel(db: Tables, now: Time, p: Proc, luck: Luck)
    requires p.prog.CancelShards? && luck.pick in p.prog.todo && luck.pick !in p.txn.shards
    requires luck.pick in db.shards && !db.shards[luck.pick].status.Terminal()
    ensures var x, y := p.txn, luck.pick;
      After(db, now, p, luck) ==
        Continue(Proc(PutShard(x.(shardLocks := x.shardLocks + {y}), y, CancelRow(db.shards[y], p.prog.shardsAt)),
                      p.prog.(todo := p.prog.todo - {y})))
  {
    assert WithLocks(db, p, luck.pick) == p.txn.(shardLocks := p.txn.shardLocks + {luck.pick});
  }

  lemma CancelShardsStep(db: Tables, now: Time, ids: map<AgentId, Identity>, p: Proc, luck: Luck)
    requires p.prog.CancelShards? && p.prog.shardsAt <= now && luck.pick in p.prog.todo && p.prog.seen.finishedAt.None?
    requires CancelShardsOk(db, p.txn, p.prog.t, p.prog.tenant, p.prog.seen, p.prog.at, p.prog.shardsAt, p.prog.todo)
    ensures ResultOk(db, now, ids, After(db, now, p, luck))
  {
    var x, t, todo, y := p.txn, p.prog.t, p.prog.todo, luck.pick;
    assert OpenShard(db, t, y) && y !in x.shards;
    CancelMore(db, x, t, p.prog.tenant, p.prog.seen, p.prog.at, p.prog.shardsAt, todo, y);
    CancelShardsPoint(db, now, ids, PutShard(x.(shardLocks := x.shardLocks + {y}), y, CancelRow(db.shards[y], p.prog.shardsAt)),
                      t, p.prog.tenant, p.prog.seen, p.prog.at, p.prog.shardsAt, todo - {y});
    AfterOneCancel(db, now, p, luck);
  }

  lemma CancelDoneStep(db: Tables, now: Time, ids: map<AgentId, Identity>, p: Proc, luck: Luck)
    requires p.prog.CancelShards? && p.prog.shardsAt <= now && p.prog.todo == {} && p.prog.seen.finishedAt.None?
    requires CancelShardsOk(db, p.txn, p.prog.t, p.prog.tenant, p.prog.seen, p.prog.at, p.prog.shardsAt, {})
    ensures ResultOk(db, now, ids, After(db, now, p, luck))
  {
    CancelDone(db, p.txn, p.prog.t, p.prog.tenant, p.prog.seen, p.prog.at, p.prog.shardsAt);
    AfterLastCancel(db, now, p, luck);
  }

  lemma StepCancelShards(db: Tables, now: Time, ids: map<AgentId, Identity>, p: Proc, luck: Luck)
    requires p.prog.CancelShards? && ProcOk(db, now, ids, p) && (p.prog.todo != {} ==> luck.pick in p.prog.todo)
    ensures ResultOk(db, now, ids, After(db, now, p, luck))
  {
    if p.prog.todo == {} { CancelDoneStep(db, now, ids, p, luck); } else { CancelShardsStep(db, now, ids, p, luck); }
  }

  /******* Rollbacks *******/

  lemma StepRollbackRead(db: Tables, now: Time, ids: map<AgentId, Identity>, p: Proc, luck: Luck)
    requires p.prog.RollbackRead? && ProcOk(db, now, ids, p) && (p.prog.s in db.shards ==> PairInv(db, p.prog.s))
    ensures ResultOk(db, now, ids, After(db, now, p, luck))
  {
    ViewOfWrites(db, p.txn);
  }

  lemma StepRollbackLoad(db: Tables, now: Time, ids: map<AgentId, Identity>, p: Proc, luck: Luck)
    requires p.prog.RollbackLoad? && ProcOk(db, now, ids, p)
    ensures ResultOk(db, now, ids, After(db, now, p, luck))
  {
    ViewOfWrites(db, p.txn);
  }

  lemma StepRollbackShard(db: Tables, now: Time, ids: map<AgentId, Identity>, p: Proc, luck: Luck)
    requires p.prog.RollbackShard? && ProcOk(db, now, ids, p)
    ensures ResultOk(db, now, ids, After(db, now, p, luck))
  {
    ViewOfWrites(db, p.txn);
  }

  lemma StepSimple(db: Tables, now: Time, ids: map<AgentId, Identity>, p: Proc, luck: Luck)
    requires p.prog.Handover? || p.prog.CancelRead? || p.prog.Refresh?
    requires ProcOk(db, now, ids, p) && (p.prog.CancelRead? && p.prog.t in db.tasks ==> FinishFits(db.tasks[p.prog.t]))
    ensures ResultOk(db, now, ids, After(db, now, p, luck))
  {
    ViewOfWrites(db, p.txn);
  }

  lemma ReportStatement(db: Tables, now: Time, ids: map<AgentId, Identity>, p: Proc, luck: Luck)
    requires InReport(p.prog) && ProcOk(db, now, ids, p) && TimesBounded(db, now)
    ensures ResultOk(db, now, ids, After(db, now, p, luck))
  {
    match p.prog
    case ReadShard(_) => StepReadShard(db, now, ids, p, luck);
    case LockTask(_, _) => StepLockTask(db, now, ids, p, luck);
    case MoveShard(_, _, _) => StepMoveShard(db, now, ids, p, luck);
    case WriteOutput(_, _, _) => StepWriteOutput(db, now, ids, p, luck);
    case MarkTask(_, _, _, _) => StepMarkTask(db, now, ids, p, luck);
  }

  lemma RecomputeStatement(db: Tables, now: Time, ids: map<AgentId, Identity>, p: Proc, luck: Luck)
    requires InRecompute(p.prog) && ProcOk(db, now, ids, p) && Choice(db, p, luck)
    ensures ResultOk(db, now, ids, After(db, now, p, luck))
  {
    match p.prog
    case Reload(_, _, _) => StepReload(db, now, ids, p, luck);
    case CountActive(_, _, _) => StepCountActive(db, now, ids, p, luck);
    case CountFailed(_, _, _) => StepCountFailed(db, now, ids, p, luck);
    case Resolve(_, _, _, _) => StepResolve(db, now, ids, p, luck);
    case CloseIt(_, _, _, _, _, _) => StepCloseIt(db, now, ids, p, luck);
  }

  lemma LeaseStatement(db: Tables, now: Time, ids: map<AgentId, Identity>, p: Proc, luck: Luck)
    requires InLease(p.prog) && ProcOk(db, now, ids, p) && Choice(db, p, luck) && (p.prog.LeaseCas? ==> PairInv(db, p.prog.s))
    ensures ResultOk(db, now, ids, After(db, now, p, luck))
  {
    match p.prog
    case LeaseSelect(_, _) => StepLeaseSelect(db, now, ids, p, luck);
    case LeaseLoad(_, _, _, _) => StepLeaseLoad(db, now, ids, p, luck);
    case LeasePromote(_, _, _, _, _) => StepLeasePromote(db, now, ids, p, luck);
    case LeaseCas(_, _, _, _, _, _, _) => StepLeaseCas(db, now, ids, p, luck);
    case Handover(_, _, _) => StepSimple(db, now, ids, p, luck);
  }

  lemma CancelStatement(db: Tables, now: Time, ids: map<AgentId, Identity>, p: Proc, luck: Luck)
    requires InCancel(p.prog) && ProcOk(db, now, ids, p) && Choice(db, p, luck) && TimesBounded(db, now)
    requires p.prog.t in db.tasks ==> FinishFits(db.tasks[p.prog.t])
    ensures ResultOk(db, now, ids, After(db, now, p, luck))
  {
    match p.prog
    case CancelTask(_, _, _) => StepCancelTask(db, now, ids, p, luck);
    case CancelScan(_, _, _, _) => StepCancelScan(db, now, ids, p, luck);
    case CancelShards(_, _, _, _, _, _) => StepCancelShards(db, now, ids, p, luck);
    case CancelRead(_, _) => StepSimple(db, now, ids, p, luck);
  }

  lemma RollbackStatement(db: Tables, now: Time, ids: map<AgentId, Identity>, p: Proc, luck: Luck)
    requires p.prog.RollbackRead? || p.prog.RollbackLoad? || p.prog.RollbackShard? || p.prog.Refresh?
    requires ProcOk(db, now, ids, p) && (p.prog.RollbackRead? && p.prog.s in db.shards ==> PairInv(db, p.prog.s))
    ensures ResultOk(db, now, ids, After(db, now, p, luck))
  {
    match p.prog
    case RollbackRead(_, _) => StepRollbackRead(db, now, ids, p, luck);
    case RollbackLoad(_, _) => StepRollbackLoad(db, now, ids, p, luck);
    case RollbackShard(_, _, _) => StepRollbackShard(db, now, ids, p, luck);
    case Refresh(_, _) => StepSimple(db, now, ids, p, luck);
  }

  predicate InCancel(prog: Prog) {
    prog.CancelRead? || prog.CancelTask? || prog.CancelScan? || prog.CancelShards?
  }

  /** Any statement of any call keeps the process's assertion. */
  lemma EveryStatement(db: Tables, now: Time, ids: map<AgentId, Identity>, p: Proc, luck: Luck)
    requires ProcOk(db, now, ids, p) && Choice(db, p, luck) && JointInv(db) && TimesBounded(db, now)
    requires !p.prog.Commit? && !p.prog.Dispatch?
    ensures ResultOk(db, now, ids, After(db, now, p, luck))
  {
    if InReport(p.prog) {
      ReportStatement(db, now, ids, p, luck);
    } else if InRecompute(p.prog) {
      RecomputeStatement(db, now, ids, p, luck);
    } else if InLease(p.prog) {
      if p.prog.LeaseCas? { assert PairInv(db, p.prog.s); }
      LeaseStatement(db, now, ids, p, luck);
    } else if InCancel(p.prog) {
      assert p.prog.t in db.tasks ==> FinishFits(db.tasks[p.prog.t]);
      CancelStatement(db, now, ids, p, luck);
    } else {
      if p.prog.RollbackRead? && p.prog.s in db.shards { assert PairInv(db, p.prog.s); }
      RollbackStatement(db, now, ids, p, luck);
    }
  }
}
