/**
 What each process of the statement-level system knows at each point of its
 program, that this knowledge survives the commits of others, and that every
 statement carries it forward.
 */
module Assertions {
  import opened Rows
  import opened Ledger
  import opened LedgerLaws
  import opened Interleaving
  import opened Queue
  import opened Rely

  /******* The assertions *******/

  /** Task and shard are locked, `row` is written over the shard, and `at` postdates every recorded time. */
  ghost predicate Holding(db: Tables, x: Txn, s: ShardId, t: TaskId, row: Shard, at: Time) {
    && x.taskLocks == {t} && x.shardLocks == {s} && x.shards == map[s := row]
    && s in db.shards && db.shards[s].task == t && t in db.tasks && !db.tasks[t].status.Cancelled? && Fresh(db, t, at)
  }

  /** The reported shard has been moved to its final status, uncommitted. */
  ghost predicate Ending(db: Tables, x: Txn, s: ShardId, t: TaskId, o: Outcome, at: Time) {
    s in db.shards && db.shards[s].status.Running? && Holding(db, x, s, t, FinishRow(db.shards[s], o, at), at)
  }

  ghost predicate MoveOk(db: Tables, x: Txn, r: Report, t: TaskId, seen: Task) {
    && x == Txn({t}, {}, map[], map[])
    && r.shard in db.shards && db.shards[r.shard].task == t
    && t in db.tasks && db.tasks[t] == seen && !seen.status.Cancelled?
  }

  ghost predicate WriteOutputOk(db: Tables, x: Txn, r: Report, t: TaskId, at: Time) {
    && x.tasks == map[] && r.ask.AskEnd? && r.ask.outcome.Success?
    && r.shard in db.shards && db.shards[r.shard].status.Running?
    && Holding(db, x, r.shard, t, SucceedRow(db.shards[r.shard], at), at)
  }

  ghost predicate MarkTaskOk(db: Tables, x: Txn, r: Report, t: TaskId, seen: Task, at: Time) {
    && x.tasks == map[] && r.ask.AskRunning?
    && r.shard in db.shards && db.shards[r.shard].status.Leased?
    && Holding(db, x, r.shard, t, StartRow(db.shards[r.shard], at), at)
    && db.tasks[t] == seen
  }

  ghost predicate ReloadOk(db: Tables, x: Txn, r: Report, t: TaskId, at: Time) {
    x.tasks == map[] && r.ask.AskEnd? && Ending(db, x, r.shard, t, r.ask.outcome, at)
  }

  ghost predicate CountFailedOk(db: Tables, x: Txn, r: Report, t: TaskId, at: Time) {
    ReloadOk(db, x, r, t, at) && Closing(db, t, r.shard)
  }

  ghost predicate NoteOk(db: Tables, s: ShardId, t: TaskId, o: Outcome, at: Time, note: string)
    requires s in db.shards
  {
    if Fails(db, t, s, o) then Resolved(WithShard(db, s, FinishRow(db.shards[s], o, at)), t, Fallback(o), note) else note == ""
  }

  ghost predicate CloseOk(db: Tables, x: Txn, r: Report, t: TaskId, at: Time, failed: bool, note: string) {
    && CountFailedOk(db, x, r, t, at)
    && (failed <==> Fails(db, t, r.shard, r.ask.outcome))
    && NoteOk(db, r.shard, t, r.ask.outcome, at, note)
  }

  /** The shard was eligible when selected; its task stays live and with the caller's tenant and backend. */
  ghost predicate SeenOk(db: Tables, q: LeaseCall, s: ShardId, t: TaskId, seenDb: Tables) {
    && IsNext(seenDb, q, s) && seenDb.shards[s].task == t
    && s in db.shards && db.shards[s].task == t
    && Owned(db, t, q.tenant, q.backend) && Live(db, t)
  }

  /** Either the promotion was written under the task lock, or the task had left WAITING_FOR_AGENTS. */
  ghost predicate PromotedOk(db: Tables, tl: set<TaskId>, tasks: map<TaskId, Task>, t: TaskId, promoted: bool) {
    && t in db.tasks
    && if promoted then tl == {t} && tasks == map[t := PromoteTask(db.tasks[t])] && db.tasks[t].status.WaitingForAgents?
       else tl == {} && tasks == map[] && db.tasks[t].status.Rank() >= 2
  }

  ghost predicate LeaseCasOk(db: Tables, x: Txn, q: LeaseCall, s: ShardId, t: TaskId, promoted: bool, seenDb: Tables) {
    && SeenOk(db, q, s, t, seenDb) && PromotedOk(db, x.taskLocks, x.tasks, t, promoted)
    && x.shardLocks == {} && x.shards == map[]
  }

  ghost predicate Cancelling(db: Tables, x: Txn, t: TaskId, tenant: TenantId, seen: Task, at: Time) {
    && x.taskLocks == {t} && t in db.tasks
    && x.tasks == map[t := CloseTask(db.tasks[t], TaskStatus.Cancelled, "", at)]
    && CancelGuard(db, t, tenant, at, at) && TaskMove(seen, db.tasks[t])
  }

  ghost predicate OpenShard(db: Tables, t: TaskId, y: ShardId) {
    IsShardOf(db, y, t) && !db.shards[y].status.Terminal()
  }

  /** The cancelled rows of the shards a bulk cancel has got to. */
  ghost function CancelSome(db: Tables, t: TaskId, at: Time, todo: set<ShardId>): map<ShardId, Shard> {
    map y | y in db.shards && OpenShard(db, t, y) && y !in todo :: CancelRow(db.shards[y], at)
  }

  ghost predicate CancelShardsOk(db: Tables, x: Txn, t: TaskId, tenant: TenantId, seen: Task, at: Time, shardsAt: Time,
                                 todo: set<ShardId>) {
    && Cancelling(db, x, t, tenant, seen, at) && at <= shardsAt
    && x.shards == CancelSome(db, t, shardsAt, todo) && x.shardLocks == x.shards.Keys
    && forall y :: y in todo ==> OpenShard(db, t, y)
  }

  ghost predicate StartOk(db: Tables, x: Txn, s: ShardId, reportedAt: Time, at: Time) {
    && s in db.shards && db.shards[s].status.Leased? && reportedAt <= at
    && var t := db.shards[s].task;
    && Holding(db, x, s, t, StartRow(db.shards[s], at), at)
    && x.tasks == map[t := RunTask(db.tasks[t], reportedAt)]
  }

  ghost predicate FinishOk(db: Tables, x: Txn, s: ShardId, o: Outcome, at: Time, closedAt: Time, note: string, hook: Option<Payload>) {
    && s in db.shards && at <= closedAt
    && var t := db.shards[s].task;
    && Ending(db, x, s, t, o, at)
    && if Closing(db, t, s) then
         && x.tasks == map[t := FinalTask(db, t, s, o, closedAt, note)] && NoteOk(db, s, t, o, at, note)
         && hook == NewPayload(t, FinalTask(db, t, s, o, closedAt, note), !Fails(db, t, s, o))
       else x.tasks == map[] && hook.None?
  }

  ghost predicate LeaseOk(db: Tables, x: Txn, s: ShardId, agent: AgentId, tenant: TenantId, backend: string) {
    && s in db.shards && db.shards[s].status.Queued?
    && x.shardLocks == {s} && x.shards == map[s := LeaseRow(db.shards[s], agent)]
    && var t := db.shards[s].task;
    && Owned(db, t, tenant, backend) && Live(db, t)
    && (PromotedOk(db, x.taskLocks, x.tasks, t, true) || PromotedOk(db, x.taskLocks, x.tasks, t, false))
  }

  ghost predicate CancelOk(db: Tables, x: Txn, t: TaskId, tenant: TenantId, at: Time, shardsAt: Time, next: Option<Prog>) {
    && t in db.tasks && CancelShardsOk(db, x, t, tenant, db.tasks[t], at, shardsAt, {})
    && var payload := NewPayload(t, db.tasks[t].(status := TaskStatus.Cancelled, lastError := ""), false);
    && (payload.None? ==> next.None?)
    && (payload.Some? ==> next.Some? && next.value == Refresh(t, payload.value.(finishedAt := None)))
  }

  ghost predicate RollbackOk(db: Tables, x: Txn, s: ShardId, from: set<ShardStatus>) {
    && s in db.shards && db.shards[s].status in from && from <= {ShardStatus.Leased, ShardStatus.Running}
    && x == Txn({}, {s}, map[], map[s := RequeueRow(db.shards[s])])
  }

  ghost predicate CommitOk(db: Tables, now: Time, ids: map<AgentId, Identity>, x: Txn, e: Event,
                           hook: Option<Payload>, next: Option<Prog>) {
    match e
    case Start(s, reportedAt, at) => StartOk(db, x, s, reportedAt, at) && at <= now && hook.None? && next.None?
    case Finish(s, o, at, closedAt, note) => FinishOk(db, x, s, o, at, closedAt, note, hook) && closedAt <= now && next.None?
    case Lease(s, agent, tenant, backend) =>
      && LeaseOk(db, x, s, agent, tenant, backend) && hook.None?
      && agent in ids && ids[agent] == Identity(tenant, backend)
      && next.Some? && next.value.Handover? && !next.value.status.WaitingForAgents?
    case Cancel(t, tenant, at, shardsAt) => CancelOk(db, x, t, tenant, at, shardsAt, next) && shardsAt <= now && hook.None?
    case Rollback(s, from) => RollbackOk(db, x, s, from) && hook.None? && next.None?
    case _ => false
  }

  /** The payload is about a closed task, and its finish time is the row's, or unset for a cancelled task that was not read again. */
  ghost predicate TimedAs(db: Tables, p: Payload, reread: bool) {
    && p.task in db.tasks && db.tasks[p.task].status.Terminal()
    && (if reread then p.finishedAt == db.tasks[p.task].finishedAt else p.finishedAt.None? && db.tasks[p.task].status.Cancelled?)
  }

  predicate KnownAgent(ids: map<AgentId, Identity>, q: LeaseCall) {
    q.agent in ids && ids[q.agent] == Identity(q.tenant, q.backend)
  }

  ghost predicate ProcOk(db: Tables, now: Time, ids: map<AgentId, Identity>, p: Proc) {
    var x := p.txn;
    match p.prog
    case ReadShard(r) => x == IDLE && r.now <= now
    case LockTask(r, stale) => x == IDLE && r.now <= now && r.shard in db.shards && ShardMove(stale, db.shards[r.shard])
    case MoveShard(r, t, seen) => MoveOk(db, x, r, t, seen) && r.now <= now
    case WriteOutput(r, t, at) => WriteOutputOk(db, x, r, t, at) && r.now <= at <= now
    case MarkTask(r, t, seen, at) => MarkTaskOk(db, x, r, t, seen, at) && r.now <= at <= now
    case Reload(r, t, at) => ReloadOk(db, x, r, t, at) && at <= now
    case CountActive(r, t, at) => ReloadOk(db, x, r, t, at) && !db.tasks[t].status.Terminal() && at <= now
    case CountFailed(r, t, at) => CountFailedOk(db, x, r, t, at) && at <= now
    case Resolve(r, t, at, closedAt) =>
      CountFailedOk(db, x, r, t, at) && Fails(db, t, r.shard, r.ask.outcome) && at <= closedAt <= now
    case CloseIt(r, t, at, closedAt, failed, note) => CloseOk(db, x, r, t, at, failed, note) && at <= closedAt <= now
    case LeaseSelect(q, tries) => x == IDLE && KnownAgent(ids, q) && tries < MAX_TRIES
    case LeaseLoad(q, tries, s, seenDb) =>
      x == IDLE && KnownAgent(ids, q) && tries < MAX_TRIES && s in seenDb.shards && SeenOk(db, q, s, seenDb.shards[s].task, seenDb)
    case LeasePromote(q, tries, s, t, seenDb) => x == IDLE && KnownAgent(ids, q) && tries < MAX_TRIES && SeenOk(db, q, s, t, seenDb)
    case LeaseCas(q, tries, s, t, status, promoted, seenDb) =>
      LeaseCasOk(db, x, q, s, t, promoted, seenDb) && KnownAgent(ids, q) && tries < MAX_TRIES && !status.WaitingForAgents?
    case Handover(_, _, status) => x == IDLE && !status.WaitingForAgents?
    case CancelRead(_, _) => x == IDLE
    case CancelTask(t, _, seen) => x == IDLE && t in db.tasks && TaskMove(seen, db.tasks[t]) && FinishFits(seen)
    case CancelScan(t, tenant, seen, at) =>
      Cancelling(db, x, t, tenant, seen, at) && x.shardLocks == {} && x.shards == map[] && at <= now && seen.finishedAt.None?
    case CancelShards(t, tenant, seen, at, shardsAt, todo) =>
      CancelShardsOk(db, x, t, tenant, seen, at, shardsAt, todo) && shardsAt <= now && seen.finishedAt.None?
    case Refresh(t, payload) => x == IDLE && payload.task == t && payload.finishedAt.None? && t in db.tasks && db.tasks[t].status.Cancelled?
    case RollbackRead(_, _) => x == IDLE
    case RollbackLoad(_, t) => x == IDLE && t in db.tasks && db.tasks[t].status.Rank() >= 2
    case RollbackShard(_, from, snapshot) =>
      && x == IDLE && from <= {ShardStatus.Leased, ShardStatus.Running}
      && (snapshot.Some? ==> !snapshot.value.1.WaitingForAgents?)
    case RollbackTask(_, _, _) => false
    case Commit(event, hook, next) =>
      if event.Some? then CommitOk(db, now, ids, x, event.value, hook, next)
      else x.tasks == map[] && x.shards == map[] && x.shardLocks == {} && |x.taskLocks| <= 1 && hook.None? && next.None?
    case Dispatch(payload, reread) => x == IDLE && TimedAs(db, payload, reread)
  }

  /******* They survive the commits of others *******/

  lemma StableHolding(db: Tables, db': Tables, x: Txn, s: ShardId, t: TaskId, row: Shard, at: Time)
    requires Holding(db, x, s, t, row, at) && Env(db, db', x.taskLocks, x.shardLocks)
    ensures Holding(db', x, s, t, row, at) && db'.shards[s] == db.shards[s] && db'.tasks[t] == db.tasks[t]
  {
    FreshStays(db, db', x.taskLocks, x.shardLocks, t, at);
  }

  lemma StableEnding(db: Tables, db': Tables, x: Txn, s: ShardId, t: TaskId, o: Outcome, at: Time)
    requires Ending(db, x, s, t, o, at) && Env(db, db', x.taskLocks, x.shardLocks)
    ensures Ending(db', x, s, t, o, at) && db'.shards[s] == db.shards[s] && db'.tasks[t] == db.tasks[t]
    ensures Closing(db', t, s) <==> Closing(db, t, s)
    ensures Fails(db', t, s, o) <==> Fails(db, t, s, o)
  {
    StableHolding(db, db', x, s, t, FinishRow(db.shards[s], o, at), at);
    OthersStay(db, db', x.taskLocks, x.shardLocks, t, s);
  }

  lemma StableNote(db: Tables, db': Tables, x: Txn, s: ShardId, t: TaskId, o: Outcome, at: Time, note: string)
    requires Ending(db, x, s, t, o, at) && Env(db, db', x.taskLocks, x.shardLocks) && NoteOk(db, s, t, o, at, note)
    ensures s in db'.shards && NoteOk(db', s, t, o, at, note)
  {
    StableEnding(db, db', x, s, t, o, at);
    if Fails(db, t, s, o) {
      ResolvedStays(db, db', x.taskLocks, x.shardLocks, t, s, FinishRow(db.shards[s], o, at), Fallback(o), note);
    }
  }

  lemma StableFinish(db: Tables, db': Tables, x: Txn, s: ShardId, o: Outcome, at: Time, closedAt: Time, note: string, hook: Option<Payload>)
    requires FinishOk(db, x, s, o, at, closedAt, note, hook) && Env(db, db', x.taskLocks, x.shardLocks)
    ensures FinishOk(db', x, s, o, at, closedAt, note, hook)
  {
    var t := db.shards[s].task;
    StableEnding(db, db', x, s, t, o, at);
    if Closing(db, t, s) { StableNote(db, db', x, s, t, o, at, note); }
  }

  lemma StableSeen(db: Tables, db': Tables, tl: set<TaskId>, sl: set<ShardId>, q: LeaseCall, s: ShardId, t: TaskId, seenDb: Tables)
    requires SeenOk(db, q, s, t, seenDb) && Env(db, db', tl, sl)
    ensures SeenOk(db', q, s, t, seenDb)
  {
  }

  lemma StablePromoted(db: Tables, db': Tables, x: Txn, t: TaskId, promoted: bool)
    requires PromotedOk(db, x.taskLocks, x.tasks, t, promoted) && Env(db, db', x.taskLocks, x.shardLocks)
    ensures PromotedOk(db', x.taskLocks, x.tasks, t, promoted)
  {
  }

  lemma StableCancelling(db: Tables, db': Tables, x: Txn, t: TaskId, tenant: TenantId, seen: Task, at: Time)
    requires Cancelling(db, x, t, tenant, seen, at) && Env(db, db', x.taskLocks, x.shardLocks)
    ensures Cancelling(db', x, t, tenant, seen, at)
  {
    FreshStays(db, db', x.taskLocks, x.shardLocks, t, at);
  }

  lemma StableOpen(db: Tables, db': Tables, tl: set<TaskId>, sl: set<ShardId>, t: TaskId, y: ShardId)
    requires Env(db, db', tl, sl) && t in db.tasks && t in tl
    ensures OpenShard(db', t, y) <==> OpenShard(db, t, y)
  {
    ShardsStay(db, db', tl, sl, t, y);
  }

  lemma StableCancelSome(db: Tables, db': Tables, x: Txn, t: TaskId, at: Time, todo: set<ShardId>)
    requires Env(db, db', x.taskLocks, x.shardLocks) && t in db.tasks && t in x.taskLocks
    requires x.shards == CancelSome(db, t, at, todo) && x.shardLocks == x.shards.Keys
    ensures x.shards == CancelSome(db', t, at, todo)
  {
    var m := CancelSome(db', t, at, todo);
    forall y
      ensures y in m <==> y in x.shards
      ensures y in m ==> m[y] == x.shards[y]
    {
      StableOpen(db, db', x.taskLocks, x.shardLocks, t, y);
    }
  }

  lemma StableCancelShards(db: Tables, db': Tables, x: Txn, t: TaskId, tenant: TenantId, seen: Task, at: Time, shardsAt: Time, todo: set<ShardId>)
    requires CancelShardsOk(db, x, t, tenant, seen, at, shardsAt, todo) && Env(db, db', x.taskLocks, x.shardLocks)
    ensures CancelShardsOk(db', x, t, tenant, seen, at, shardsAt, todo)
  {
    StableCancelling(db, db', x, t, tenant, seen, at);
    StableCancelSome(db, db', x, t, shardsAt, todo);
    forall y | y in todo ensures OpenShard(db', t, y) { StableOpen(db, db', x.taskLocks, x.shardLocks, t, y); }
  }

  lemma StableCommit(db: Tables, db': Tables, now: Time, ids: map<AgentId, Identity>, x: Txn, e: Event, hook: Option<Payload>, next: Option<Prog>)
    requires CommitOk(db, now, ids, x, e, hook, next) && Env(db, db', x.taskLocks, x.shardLocks)
    ensures CommitOk(db', now, ids, x, e, hook, next)
  {
    match e
    case Start(s, _, at) => StableHolding(db, db', x, s, db.shards[s].task, StartRow(db.shards[s], at), at);
    case Finish(s, o, at, closedAt, note) => StableFinish(db, db', x, s, o, at, closedAt, note, hook);
    case Lease(s, _, _, _) =>
      var t := db.shards[s].task;
      if PromotedOk(db, x.taskLocks, x.tasks, t, true) { StablePromoted(db, db', x, t, true); }
      else { StablePromoted(db, db', x, t, false); }
    case Cancel(t, tenant, at, shardsAt) => StableCancelShards(db, db', x, t, tenant, db.tasks[t], at, shardsAt, {});
    case Rollback(_, _) =>
  }

  predicate InReport(prog: Prog) {
    || prog.ReadShard? || prog.LockTask? || prog.MoveShard? || prog.WriteOutput? || prog.MarkTask?
  }

  predicate InRecompute(prog: Prog) {
    prog.Reload? || prog.CountActive? || prog.CountFailed? || prog.Resolve? || prog.CloseIt?
  }

  predicate InLease(prog: Prog) {
    prog.LeaseSelect? || prog.LeaseLoad? || prog.LeasePromote? || prog.LeaseCas? || prog.Handover?
  }

  lemma StableReport(db: Tables, db': Tables, now: Time, ids: map<AgentId, Identity>, p: Proc)
    requires InReport(p.prog) && ProcOk(db, now, ids, p) && Env(db, db', p.txn.taskLocks, p.txn.shardLocks)
    ensures ProcOk(db', now, ids, p)
  {
    match p.prog
    case WriteOutput(r, t, at) => StableHolding(db, db', p.txn, r.shard, t, SucceedRow(db.shards[r.shard], at), at);
    case MarkTask(r, t, _, at) => StableHolding(db, db', p.txn, r.shard, t, StartRow(db.shards[r.shard], at), at);
    case _ =>
  }

  lemma StableRecompute(db: Tables, db': Tables, now: Time, ids: map<AgentId, Identity>, p: Proc)
    requires InRecompute(p.prog) && ProcOk(db, now, ids, p) && Env(db, db', p.txn.taskLocks, p.txn.shardLocks)
    ensures ProcOk(db', now, ids, p)
  {
    StableEnding(db, db', p.txn, p.prog.r.shard, p.prog.t, p.prog.r.ask.outcome, p.prog.at);
    if p.prog.CloseIt? {
      StableNote(db, db', p.txn, p.prog.r.shard, p.prog.t, p.prog.r.ask.outcome, p.prog.at, p.prog.note);
    }
  }

  lemma StableLease(db: Tables, db': Tables, now: Time, ids: map<AgentId, Identity>, p: Proc)
    requires InLease(p.prog) && ProcOk(db, now, ids, p) && Env(db, db', p.txn.taskLocks, p.txn.shardLocks)
    ensures ProcOk(db', now, ids, p)
  {
    var tl, sl := p.txn.taskLocks, p.txn.shardLocks;
    match p.prog
    case LeaseLoad(q, _, s, seenDb) => StableSeen(db, db', tl, sl, q, s, seenDb.shards[s].task, seenDb);
    case LeasePromote(q, _, s, t, seenDb) => StableSeen(db, db', tl, sl, q, s, t, seenDb);
    case LeaseCas(q, _, s, t, _, promoted, seenDb) =>
      StableSeen(db, db', tl, sl, q, s, t, seenDb);
      StablePromoted(db, db', p.txn, t, promoted);
    case _ =>
  }

  lemma StableRest(db: Tables, db': Tables, now: Time, ids: map<AgentId, Identity>, p: Proc)
    requires !InReport(p.prog) && !InRecompute(p.prog) && !InLease(p.prog)
    requires ProcOk(db, now, ids, p) && Env(db, db', p.txn.taskLocks, p.txn.shardLocks)
    ensures ProcOk(db', now, ids, p)
  {
    match p.prog
    case CancelScan(t, tenant, seen, at) => StableCancelling(db, db', p.txn, t, tenant, seen, at);
    case CancelShards(t, tenant, seen, at, shardsAt, todo) =>
      StableCancelShards(db, db', p.txn, t, tenant, seen, at, shardsAt, todo);
    case Commit(event, hook, next) => if event.Some? { StableCommit(db, db', now, ids, p.txn, event.value, hook, next); }
    case _ =>
  }

  /** Interference freedom: no commit that respects a process's locks spoils what it knows. */
  lemma Stable(db: Tables, db': Tables, now: Time, ids: map<AgentId, Identity>, p: Proc)
    requires ProcOk(db, now, ids, p) && Env(db, db', p.txn.taskLocks, p.txn.shardLocks)
    ensures ProcOk(db', now, ids, p)
  {
    if InReport(p.prog) { StableReport(db, db', now, ids, p); }
    else if InRecompute(p.prog) { StableRecompute(db, db', now, ids, p); }
    else if InLease(p.prog) { StableLease(db, db', now, ids, p); }
    else { StableRest(db, db', now, ids, p); }
  }
}
