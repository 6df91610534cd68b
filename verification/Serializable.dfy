/**
 Serializability: whatever way the statements interleave, the committed tables
 are always those of a legal log of whole transactions. Every law of `Ledger`
 and `LedgerLaws` therefore holds of the statement-level system.
 */
module Serializable {
  import opened Rows
  import opened Ledger
  import opened LedgerLaws
  import opened Interleaving
  import opened Rely
  import opened Assertions
  import opened Statements

  ghost predicate Exclusive(procs: map<Pid, Proc>) {
    forall a, b :: a in procs && b in procs && a != b ==>
      procs[a].txn.taskLocks !! procs[b].txn.taskLocks && procs[a].txn.shardLocks !! procs[b].txn.shardLocks
  }

  ghost predicate ProcsOk(sys: Sys) {
    forall pid :: pid in sys.procs ==> ProcOk(sys.db, sys.now, sys.ids, sys.procs[pid])
  }

  ghost predicate Core(sys: Sys) {
    && Legal(sys.log) && sys.db == Exec(sys.log)
    && TimesBounded(sys.db, sys.now) && Exclusive(sys.procs) && ProcsOk(sys)
  }

  /******* A commit is a ledger event *******/

  lemma LiveQueued(db: Tables, s: ShardId)
    requires JointInv(db) && s in db.shards && db.shards[s].status.Queued? && Live(db, db.shards[s].task)
    ensures db.tasks[db.shards[s].task].status.Leasable()
  {
    var t := db.shards[s].task;
    if ClosedByWork(db, t) {
      SucceededShards(db, t);
      assert IsShardOf(db, s, t);
    }
  }

  lemma StartEffect(db: Tables, x: Txn, e: Event)
    requires e.Start? && StartOk(db, x, e.shard, e.reportedAt, e.at)
    ensures Enabled(db, e) && x.tasks == TaskWrites(db, e) && x.shards == ShardWrites(db, e)
  {
  }

  lemma FinishEffect(db: Tables, x: Txn, e: Event, hook: Option<Payload>)
    requires e.Finish? && FinishOk(db, x, e.shard, e.outcome, e.at, e.closedAt, e.note, hook)
    ensures Enabled(db, e) && x.tasks == TaskWrites(db, e) && x.shards == ShardWrites(db, e) && hook == HookOf(db, e)
  {
  }

  lemma LeaseEffect(db: Tables, x: Txn, e: Event)
    requires e.Lease? && LeaseOk(db, x, e.shard, e.agent, e.tenant, e.backend)
    requires db.tasks[db.shards[e.shard].task].status.Leasable()
    ensures Enabled(db, e) && x.tasks == TaskWrites(db, e) && x.shards == ShardWrites(db, e)
  {
  }

  lemma CancelEffect(db: Tables, x: Txn, e: Event, next: Option<Prog>)
    requires e.Cancel? && CancelOk(db, x, e.task, e.tenant, e.at, e.shardsAt, next)
    ensures Enabled(db, e) && x.tasks == TaskWrites(db, e) && x.shards == ShardWrites(db, e)
    ensures HookOf(db, e).Some? <==> next.Some?
    ensures next.Some? ==>
      next.value == Refresh(e.task, HookOf(db, e).value.(finishedAt := None)) && HookOf(db, e).value.finishedAt == Some(e.at)
  {
    assert x.shards == CancelSome(db, e.task, e.shardsAt, {});
    forall y
      ensures y in ShardWrites(db, e) <==> y in x.shards
      ensures y in x.shards ==> ShardWrites(db, e)[y] == x.shards[y]
    {
      assert y in db.shards && db.shards[y].task == e.task && !db.shards[y].status.Terminal() <==> OpenShard(db, e.task, y);
    }
  }

  lemma RollbackEffect(db: Tables, x: Txn, e: Event)
    requires e.Rollback? && RollbackOk(db, x, e.shard, e.from)
    ensures Enabled(db, e) && x.tasks == TaskWrites(db, e) && x.shards == ShardWrites(db, e)
  {
  }

  /** The event a process is about to commit is enabled, and its writes are exactly the event's. */
  lemma CommitEffect(db: Tables, now: Time, ids: map<AgentId, Identity>, x: Txn, e: Event, hook: Option<Payload>, next: Option<Prog>)
    requires CommitOk(db, now, ids, x, e, hook, next) && JointInv(db)
    ensures Enabled(db, e) && x.tasks == TaskWrites(db, e) && x.shards == ShardWrites(db, e) && !e.AddTenant?
  {
    match e
    case Start(_, _, _) => StartEffect(db, x, e);
    case Finish(_, _, _, _, _) => FinishEffect(db, x, e, hook);
    case Lease(s, _, _, _) => LiveQueued(db, s); LeaseEffect(db, x, e);
    case Cancel(_, _, _, _) => CancelEffect(db, x, e, next);
    case Rollback(_, _) => RollbackEffect(db, x, e);
  }

  /** Its locks cover the event, so nobody else's locked rows are touched. */
  lemma CommitCovers(db: Tables, now: Time, ids: map<AgentId, Identity>, x: Txn, e: Event, hook: Option<Payload>, next: Option<Prog>,
                     tl: set<TaskId>, sl: set<ShardId>)
    requires CommitOk(db, now, ids, x, e, hook, next) && Addressed(db, e)
    requires tl !! x.taskLocks && sl !! x.shardLocks
    ensures Undisturbed(db, e, tl, sl)
  {
    if e.Cancel? {
      assert forall y :: OpenShard(db, e.task, y) ==> y in CancelSome(db, e.task, e.shardsAt, {});
    }
  }

  lemma LegalMore(log: seq<Event>, e: Event)
    requires Legal(log) && Enabled(Exec(log), e)
    ensures Legal(log + [e]) && Exec(log + [e]) == Apply(Exec(log), e)
  {
    assert Front(log + [e]) == log && Last(log + [e]) == e;
  }

  /******* Time and registration only help *******/

  lemma LaterOk(db: Tables, now: Time, later: Time, ids: map<AgentId, Identity>, p: Proc)
    requires ProcOk(db, now, ids, p) && now <= later
    ensures ProcOk(db, later, ids, p)
  {
  }

  lemma MoreIdsOk(db: Tables, now: Time, ids: map<AgentId, Identity>, more: map<AgentId, Identity>, p: Proc)
    requires ProcOk(db, now, ids, p) && forall a :: a in ids ==> a in more && more[a] == ids[a]
    ensures ProcOk(db, now, more, p)
  {
  }

  ghost predicate TimesOf(e: Event, now: Time) {
    match e
    case Start(_, reportedAt, at) => reportedAt <= now && at <= now
    case Finish(_, _, at, closedAt, _) => at <= now && closedAt <= now
    case Cancel(_, _, at, shardsAt) => at <= now && shardsAt <= now
    case _ => true
  }

  lemma TimesAfter(db: Tables, e: Event, db': Tables, now: Time)
    requires Enabled(db, e) && RowsAfter(db, e, db') && TimesBounded(db, now) && TimesOf(e, now)
    requires e.Submit? ==> db'.tasks[e.task].startedAt.None?
    ensures TimesBounded(db', now)
  {
    forall t | t in db'.tasks ensures NotAfter(db'.tasks[t].startedAt, Some(now)) {
      if t in db.tasks { TaskTimes(db, e, t, now); }
    }
    forall x | x in db'.shards
      ensures NotAfter(db'.shards[x].startedAt, Some(now)) && NotAfter(db'.shards[x].finishedAt, Some(now))
    {
      if x in db.shards { ShardTimes(db, e, x, now); }
    }
  }

  lemma TaskTimes(db: Tables, e: Event, t: TaskId, now: Time)
    requires Enabled(db, e) && TimesOf(e, now) && t in db.tasks && NotAfter(db.tasks[t].startedAt, Some(now))
    ensures NotAfter(TaskAfter(db, e, t).startedAt, Some(now))
  {
  }

  lemma ShardTimes(db: Tables, e: Event, x: ShardId, now: Time)
    requires Enabled(db, e) && TimesOf(e, now) && x in db.shards
    requires NotAfter(db.shards[x].startedAt, Some(now)) && NotAfter(db.shards[x].finishedAt, Some(now))
    ensures NotAfter(ShardAfter(db, e, x).startedAt, Some(now)) && NotAfter(ShardAfter(db, e, x).finishedAt, Some(now))
  {
  }

  /******* Every action keeps the core invariant *******/

  lemma CoreTick(sys: Sys, to: Time)
    requires Core(sys) && sys.now <= to
    ensures Core(sys.(now := to))
  {
    forall pid | pid in sys.procs ensures ProcOk(sys.db, to, sys.ids, sys.procs[pid]) {
      LaterOk(sys.db, sys.now, to, sys.ids, sys.procs[pid]);
    }
  }

  lemma CoreRegister(sys: Sys, agent: AgentId, id: Identity)
    requires Core(sys) && (agent in sys.ids ==> sys.ids[agent] == id)
    ensures Core(sys.(ids := sys.ids[agent := id]))
  {
    var more := sys.ids[agent := id];
    forall pid | pid in sys.procs ensures ProcOk(sys.db, sys.now, more, sys.procs[pid]) {
      MoreIdsOk(sys.db, sys.now, sys.ids, more, sys.procs[pid]);
    }
  }

  lemma CoreSpawn(sys: Sys, pid: Pid, prog: Prog)
    requires Core(sys) && pid !in sys.procs && Entry(sys, prog)
    ensures Core(sys.(procs := sys.procs[pid := Proc(IDLE, prog)]))
  {
  }

  lemma CoreRemove(sys: Sys, pid: Pid)
    requires Core(sys)
    ensures Core(sys.(procs := sys.procs - {pid}))
  {
  }

  /** Taking free locks keeps the locks exclusive. */
  lemma ExclusiveMore(sys: Sys, pid: Pid, pick: ShardId, p': Proc)
    requires pid in sys.procs && Exclusive(sys.procs) && Unblocked(sys, pid, pick)
    requires p'.txn.taskLocks == WithLocks(sys.db, sys.procs[pid], pick).taskLocks
    requires p'.txn.shardLocks == WithLocks(sys.db, sys.procs[pid], pick).shardLocks
    ensures Exclusive(sys.procs[pid := p'])
  {
  }

  ghost predicate LocksTaken(db: Tables, p: Proc, pick: ShardId, res: Result) {
    res.Continue? ==>
      && res.proc.txn.taskLocks == WithLocks(db, p, pick).taskLocks
      && res.proc.txn.shardLocks == WithLocks(db, p, pick).shardLocks
  }

  lemma ReportLocks(db: Tables, now: Time, p: Proc, x: Txn, luck: Luck)
    requires InReport(p.prog) || InRecompute(p.prog)
    ensures var res := Advance(db, now, p, x, luck);
      res.Continue? ==> res.proc.txn.taskLocks == x.taskLocks && res.proc.txn.shardLocks == x.shardLocks
  {
  }

  lemma OtherLocks(db: Tables, now: Time, p: Proc, x: Txn, luck: Luck)
    requires !InReport(p.prog) && !InRecompute(p.prog)
    ensures var res := Advance(db, now, p, x, luck);
      res.Continue? ==> res.proc.txn.taskLocks == x.taskLocks && res.proc.txn.shardLocks == x.shardLocks
  {
  }

  /** A statement adds the locks it needed and no others, whatever it writes. */
  lemma StatementLocks(db: Tables, now: Time, p: Proc, luck: Luck)
    ensures LocksTaken(db, p, luck.pick, After(db, now, p, luck))
  {
    if InReport(p.prog) || InRecompute(p.prog) { ReportLocks(db, now, p, WithLocks(db, p, luck.pick), luck); }
    else { OtherLocks(db, now, p, WithLocks(db, p, luck.pick), luck); }
  }

  lemma CoreStatement(sys: Sys, pid: Pid, luck: Luck)
    requires Core(sys) && Can(sys, Statement(pid, luck))
    ensures Core(AfterStatement(sys, pid, luck))
  {
    JointInvariant(sys.log);
    var p := sys.procs[pid];
    var res := After(sys.db, sys.now, p, luck);
    EveryStatement(sys.db, sys.now, sys.ids, p, luck);
    if res.Continue? {
      StatementLocks(sys.db, sys.now, p, luck);
      ExclusiveMore(sys, pid, luck.pick, res.proc);
      CoreReplace(sys, pid, res.proc);
    } else {
      CoreRemove(sys, pid);
    }
  }

  lemma CoreReplace(sys: Sys, pid: Pid, p': Proc)
    requires Core(sys) && pid in sys.procs && Exclusive(sys.procs[pid := p']) && ProcOk(sys.db, sys.now, sys.ids, p')
    ensures Core(sys.(procs := sys.procs[pid := p']))
  {
  }

  /** An event committed around processes whose locks it respects. */
  lemma CoreEvent(sys: Sys, e: Event)
    requires Core(sys) && Enabled(sys.db, e) && TimesOf(e, sys.now)
    requires forall pid :: pid in sys.procs ==> Undisturbed(sys.db, e, sys.procs[pid].txn.taskLocks, sys.procs[pid].txn.shardLocks)
    ensures Core(sys.(db := Apply(sys.db, e), log := sys.log + [e]))
  {
    JointInvariant(sys.log);
    LegalMore(sys.log, e);
    ApplyRows(sys.db, e);
    var db' := Apply(sys.db, e);
    TimesAfter(sys.db, e, db', sys.now);
    ProcsAfter(sys, e, db');
  }

  lemma ProcsAfter(sys: Sys, e: Event, db': Tables)
    requires JointInv(sys.db) && Enabled(sys.db, e) && RowsAfter(sys.db, e, db') && ProcsOk(sys)
    requires forall pid :: pid in sys.procs ==> Undisturbed(sys.db, e, sys.procs[pid].txn.taskLocks, sys.procs[pid].txn.shardLocks)
    ensures forall pid :: pid in sys.procs ==> ProcOk(db', sys.now, sys.ids, sys.procs[pid])
  {
    forall pid | pid in sys.procs ensures ProcOk(db', sys.now, sys.ids, sys.procs[pid]) {
      var p := sys.procs[pid];
      EventEnv(sys.db, e, db', p.txn.taskLocks, p.txn.shardLocks);
      Stable(sys.db, db', sys.now, sys.ids, p);
    }
  }

  /** The system without one process. */
  ghost function Without(sys: Sys, pid: Pid): Sys {
    sys.(procs := sys.procs - {pid})
  }

  lemma ViewIsApply(db: Tables, now: Time, ids: map<AgentId, Identity>, x: Txn, e: Event, hook: Option<Payload>, next: Option<Prog>)
    requires CommitOk(db, now, ids, x, e, hook, next) && JointInv(db)
    ensures Enabled(db, e) && TimesOf(e, now) && View(db, x) == Apply(db, e)
  {
    CommitEffect(db, now, ids, x, e, hook, next);
  }

  lemma OthersUndisturbed(procs: map<Pid, Proc>, pid: Pid, db: Tables, now: Time, ids: map<AgentId, Identity>, e: Event,
                          hook: Option<Payload>, next: Option<Prog>)
    requires pid in procs && Exclusive(procs) && Addressed(db, e) && CommitOk(db, now, ids, procs[pid].txn, e, hook, next)
    ensures forall q :: q in procs - {pid} ==> Undisturbed(db, e, procs[q].txn.taskLocks, procs[q].txn.shardLocks)
  {
    forall q | q in procs - {pid}
      ensures Undisturbed(db, e, procs[q].txn.taskLocks, procs[q].txn.shardLocks)
    {
      CommitCovers(db, now, ids, procs[pid].txn, e, hook, next, procs[q].txn.taskLocks, procs[q].txn.shardLocks);
    }
  }

  lemma NextOk(db: Tables, now: Time, ids: map<AgentId, Identity>, x: Txn, e: Event, hook: Option<Payload>, next: Option<Prog>, db': Tables)
    requires CommitOk(db, now, ids, x, e, hook, next) && Addressed(db, e) && RowsAfter(db, e, db')
    ensures next.Some? ==> ProcOk(db', now, ids, Proc(IDLE, next.value))
  {
    if e.Cancel? && next.Some? {
      assert TaskAfter(db, e, e.task).status.Cancelled?;
    }
  }

  /** The payload of a finish carries the finish time just committed. */
  lemma HookOk(db: Tables, x: Txn, e: Event, hook: Option<Payload>, db': Tables)
    requires e.Finish? && FinishOk(db, x, e.shard, e.outcome, e.at, e.closedAt, e.note, hook) && hook.Some?
    requires Addressed(db, e) && RowsAfter(db, e, db')
    ensures TimedAs(db', hook.value, true)
  {
    assert db'.tasks[db.shards[e.shard].task] == TaskAfter(db, e, db.shards[e.shard].task);
  }

  lemma CommitNext(db: Tables, now: Time, ids: map<AgentId, Identity>, p: Proc, db': Tables)
    requires p.prog.Commit? && p.prog.event.Some? && Addressed(db, p.prog.event.value) && RowsAfter(db, p.prog.event.value, db')
    requires CommitOk(db, now, ids, p.txn, p.prog.event.value, p.prog.hook, p.prog.next)
    ensures AfterCommit(p.prog).Some? ==> ProcOk(db', now, ids, Proc(IDLE, AfterCommit(p.prog).value))
  {
    NextOk(db, now, ids, p.txn, p.prog.event.value, p.prog.hook, p.prog.next, db');
    if p.prog.hook.Some? { HookOk(db, p.txn, p.prog.event.value, p.prog.hook, db'); }
  }

  /** Everything a commit needs, from the process's own assertion. */
  lemma CommitFacts(procs: map<Pid, Proc>, pid: Pid, db: Tables, now: Time, ids: map<AgentId, Identity>)
    requires pid in procs && procs[pid].prog.Commit? && procs[pid].prog.event.Some?
    requires Exclusive(procs) && JointInv(db) && ProcOk(db, now, ids, procs[pid])
    ensures var p := procs[pid]; var e := p.prog.event.value;
      && Enabled(db, e) && TimesOf(e, now) && View(db, p.txn) == Apply(db, e)
      && (AfterCommit(p.prog).Some? ==> ProcOk(Apply(db, e), now, ids, Proc(IDLE, AfterCommit(p.prog).value)))
      && forall q :: q in procs - {pid} ==> Undisturbed(db, e, procs[q].txn.taskLocks, procs[q].txn.shardLocks)
  {
    var p := procs[pid];
    var e, hook, next := p.prog.event.value, p.prog.hook, p.prog.next;
    ViewIsApply(db, now, ids, p.txn, e, hook, next);
    OthersUndisturbed(procs, pid, db, now, ids, e, hook, next);
    ApplyRows(db, e);
    CommitNext(db, now, ids, p, Apply(db, e));
  }

  lemma EmptyCommit(db: Tables, now: Time, ids: map<AgentId, Identity>, p: Proc)
    requires ProcOk(db, now, ids, p) && p.prog.Commit? && p.prog.event.None?
    ensures AfterCommit(p.prog).None?
  {
  }

  lemma CoreCommit(sys: Sys, pid: Pid)
    requires Core(sys) && pid in sys.procs && sys.procs[pid].prog.Commit?
    ensures Core(Committed(sys, pid))
  {
    if sys.procs[pid].prog.event.None? {
      EmptyCommit(sys.db, sys.now, sys.ids, sys.procs[pid]);
      assert Committed(sys, pid) == Without(sys, pid);
      CoreRemove(sys, pid);
    } else {
      CoreCommitEvent(sys, pid);
    }
  }

  lemma CoreCommitEvent(sys: Sys, pid: Pid)
    requires Core(sys) && pid in sys.procs && sys.procs[pid].prog.Commit? && sys.procs[pid].prog.event.Some?
    ensures Core(Committed(sys, pid))
  {
    JointInvariant(sys.log);
    CommitFacts(sys.procs, pid, sys.db, sys.now, sys.ids);
    CoreCommitted(sys, pid);
  }

  lemma CommittedShape(sys: Sys, pid: Pid)
    requires pid in sys.procs && sys.procs[pid].prog.Commit? && sys.procs[pid].prog.event.Some?
    ensures var sys', p := Committed(sys, pid), sys.procs[pid];
      && sys'.db == View(sys.db, p.txn) && sys'.log == sys.log + [p.prog.event.value] && sys'.now == sys.now && sys'.ids == sys.ids
      && sys'.procs == (if AfterCommit(p.prog).Some? then (sys.procs - {pid})[pid := Proc(IDLE, AfterCommit(p.prog).value)]
                        else sys.procs - {pid})
  {
    var next := AfterCommit(sys.procs[pid].prog);
    if next.Some? {
      assert (sys.procs - {pid})[pid := Proc(IDLE, next.value)] == sys.procs[pid := Proc(IDLE, next.value)];
    }
  }

  lemma CoreCommitted(sys: Sys, pid: Pid)
    requires Core(sys) && pid in sys.procs && sys.procs[pid].prog.Commit? && sys.procs[pid].prog.event.Some?
    requires var p := sys.procs[pid]; var e := p.prog.event.value;
      && Enabled(sys.db, e) && TimesOf(e, sys.now) && View(sys.db, p.txn) == Apply(sys.db, e)
      && (AfterCommit(p.prog).Some? ==> ProcOk(Apply(sys.db, e), sys.now, sys.ids, Proc(IDLE, AfterCommit(p.prog).value)))
      && forall q :: q in sys.procs - {pid} ==> Undisturbed(sys.db, e, sys.procs[q].txn.taskLocks, sys.procs[q].txn.shardLocks)
    ensures Core(Committed(sys, pid))
  {
    var p, e := sys.procs[pid], sys.procs[pid].prog.event.value;
    CoreRemove(sys, pid);
    CoreEvent(Without(sys, pid), e);
    CommittedShape(sys, pid);
    CoreAdd(Without(sys, pid).(db := Apply(sys.db, e), log := sys.log + [e]), pid, AfterCommit(p.prog), Committed(sys, pid));
  }

  lemma CoreAdd(rest: Sys, pid: Pid, next: Option<Prog>, sys': Sys)
    requires Core(rest) && pid !in rest.procs
    requires next.Some? ==> ProcOk(rest.db, rest.now, rest.ids, Proc(IDLE, next.value))
    requires sys'.db == rest.db && sys'.log == rest.log && sys'.now == rest.now && sys'.ids == rest.ids
    requires sys'.procs == if next.Some? then rest.procs[pid := Proc(IDLE, next.value)] else rest.procs
    ensures Core(sys')
  {
  }

  lemma CoreDirect(sys: Sys, e: Event)
    requires Core(sys) && Standalone(sys, e)
    ensures Core(sys.(db := Apply(sys.db, e), log := sys.log + [e]))
  {
    CoreEvent(sys, e);
  }

  lemma CoreStep(sys: Sys, a: Action)
    requires Core(sys) && Can(sys, a)
    ensures Core(Next(sys, a))
  {
    match a
    case Tick(to) => CoreTick(sys, to);
    case Spawn(pid, prog) => CoreSpawn(sys, pid, prog);
    case Statement(pid, luck) => CoreStatement(sys, pid, luck);
    case CommitNow(pid) => CoreCommit(sys, pid);
    case Abort(pid) => CoreRemove(sys, pid);
    case Send(pid) => CoreRemove(sys, pid);
    case Direct(e) => CoreDirect(sys, e);
    case Register(agent, id) => CoreRegister(sys, agent, id);
    case Restart =>
  }

  /**
   Serializability. After any sequence of statements, commits, aborts and
   restarts the committed state is the replay of the log of committed events,
   and the log is legal as a sequence of whole transactions.
   */
  lemma {:induction false} Serializability(actions: seq<Action>)
    requires Feasible(actions)
    ensures Core(Run(actions))
  {
    if |actions| > 0 {
      Serializability(Front(actions));
      CoreStep(Run(Front(actions)), Last(actions));
    }
  }
}
