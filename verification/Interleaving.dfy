/**
 The same transactions, split into their SQL statements and run against each
 other at READ COMMITTED.

 A process is one call of the task service: a report, a lease, a cancel or a
 rollback. Its program `Prog` says which statement comes next. A statement
 reads the committed tables overlaid with the process's own uncommitted writes.
 An UPDATE whose WHERE clause matches, and a SELECT FOR UPDATE, first need the
 row lock; while another process holds it the statement cannot run, and when it
 runs it judges the row anew. Locks and writes last until commit or abort.
 */
module Interleaving {
  import opened Rows
  import opened Ledger
  import opened Queue

  type Pid = nat

  datatype Identity = Identity(tenant: TenantId, backend: string)

  /** Row locks held and rows written but not yet committed. */
  datatype Txn = Txn(
    taskLocks: set<TaskId>,
    shardLocks: set<ShardId>,
    tasks: map<TaskId, Task>,
    shards: map<ShardId, Shard>)

  const IDLE := Txn({}, {}, map[], map[])

  /** What a report asks for; any other status string changes nothing. */
  datatype Ask = AskRunning | AskEnd(outcome: Outcome) | AskNothing

  datatype Report = Report(shard: ShardId, ask: Ask, now: Time)

  /** Why a shard is rolled back: agent timeout, orphan cleanup, or the agent reporting IDLE. */
  datatype Why =
    | TimedOut(agent: AgentId, tenant: TenantId, backend: string)
    | Orphan(registered: set<AgentId>, cutoff: Time)
    | AgentIdle(agent: AgentId)

  const MAX_TRIES := 100

  datatype Prog =
    // ReportShardStatus
    | ReadShard(r: Report)
    | LockTask(r: Report, stale: Shard)
    | MoveShard(r: Report, t: TaskId, seen: Task)
    | WriteOutput(r: Report, t: TaskId, at: Time)
    | MarkTask(r: Report, t: TaskId, seen: Task, at: Time)
    // RecomputeTaskStatus, inside a report
    | Reload(r: Report, t: TaskId, at: Time)
    | CountActive(r: Report, t: TaskId, at: Time)
    | CountFailed(r: Report, t: TaskId, at: Time)
    | Resolve(r: Report, t: TaskId, at: Time, closedAt: Time)
    | CloseIt(r: Report, t: TaskId, at: Time, closedAt: Time, failed: bool, note: string)
    // LeaseNextShard; `seen` is the committed state its SELECT read
    | LeaseSelect(q: LeaseCall, tries: nat)
    | LeaseLoad(q: LeaseCall, tries: nat, s: ShardId, seenDb: Tables)
    | LeasePromote(q: LeaseCall, tries: nat, s: ShardId, t: TaskId, seenDb: Tables)
    | LeaseCas(q: LeaseCall, tries: nat, s: ShardId, t: TaskId, status: TaskStatus, promoted: bool, seenDb: Tables)
    | Handover(s: ShardId, t: TaskId, status: TaskStatus)
    // CancelTask
    | CancelRead(t: TaskId, tenant: TenantId)
    | CancelTask(t: TaskId, tenant: TenantId, seen: Task)
    | CancelScan(t: TaskId, tenant: TenantId, seen: Task, at: Time)
    | CancelShards(t: TaskId, tenant: TenantId, seen: Task, at: Time, shardsAt: Time, todo: set<ShardId>)
    | Refresh(t: TaskId, payload: Payload)
    // the rollbacks
    | RollbackRead(s: ShardId, why: Why)
    | RollbackLoad(s: ShardId, t: TaskId)
    | RollbackShard(s: ShardId, from: set<ShardStatus>, snapshot: Option<(TaskId, TaskStatus)>)
    | RollbackTask(s: ShardId, from: set<ShardStatus>, t: TaskId)
    // every transaction
    | Commit(event: Option<Event>, hook: Option<Payload>, next: Option<Prog>)
    // `reread` is false when the finish time could not be read after the commit
    | Dispatch(payload: Payload, reread: bool)

  datatype Proc = Proc(txn: Txn, prog: Prog)

  /** What a statement's outcome leaves open: a tied row, a tied text, whether a message could be sent or a row read. */
  datatype Luck = Luck(pick: ShardId, note: string, sent: bool, read: bool)

  /** A statement's result: the process goes on, or its transaction is over without effect. */
  datatype Result = Continue(proc: Proc) | Quit

  ghost function View(db: Tables, x: Txn): Tables {
    db.(tasks := db.tasks + x.tasks, shards := db.shards + x.shards)
  }

  /******* Which row lock the next statement needs *******/

  ghost function WantsTask(db: Tables, p: Proc): Option<TaskId> {
    var v := View(db, p.txn);
    match p.prog
    case LockTask(_, stale) => if stale.task in v.tasks then Some(stale.task) else None
    case MarkTask(_, t, _, _) => if t in v.tasks && !v.tasks[t].status.Cancelled? then Some(t) else None
    case Reload(_, t, _) => if t in v.tasks then Some(t) else None
    case CloseIt(_, t, _, _, _, _) => if t in v.tasks && !v.tasks[t].status.Terminal() then Some(t) else None
    case LeasePromote(_, _, _, t, _) => if t in v.tasks && v.tasks[t].status.WaitingForAgents? then Some(t) else None
    case CancelTask(t, tenant, _) =>
      if t in v.tasks && v.tasks[t].tenant == tenant && !v.tasks[t].status.Terminal() then Some(t) else None
    case RollbackTask(_, _, t) => if t in v.tasks && v.tasks[t].status.Queued? then Some(t) else None
    case _ => None
  }

  ghost function WantsShard(db: Tables, p: Proc, pick: ShardId): Option<ShardId> {
    var v := View(db, p.txn);
    match p.prog
    case MoveShard(r, _, _) =>
      if r.shard in v.shards && !r.ask.AskNothing? && v.shards[r.shard].status == Expected(r.ask) then Some(r.shard) else None
    case WriteOutput(r, _, _) => if r.shard in v.shards then Some(r.shard) else None
    case LeaseCas(_, _, s, _, _, _, _) => if s in v.shards && v.shards[s].status.Queued? then Some(s) else None
    case CancelShards(_, _, _, _, _, todo) =>
      if pick in todo && pick in v.shards && !v.shards[pick].status.Terminal() then Some(pick) else None
    case RollbackShard(s, from, _) => if s in v.shards && v.shards[s].status in from then Some(s) else None
    case _ => None
  }

  /** The status a report's guarded shard update insists on. */
  function Expected(ask: Ask): ShardStatus {
    if ask.AskRunning? then ShardStatus.Leased else ShardStatus.Running
  }

  function AsSet<T>(o: Option<T>): set<T> {
    if o.Some? then {o.value} else {}
  }

  ghost function WithLocks(db: Tables, p: Proc, pick: ShardId): Txn {
    p.txn.(taskLocks := p.txn.taskLocks + AsSet(WantsTask(db, p)),
           shardLocks := p.txn.shardLocks + AsSet(WantsShard(db, p, pick)))
  }

  function PutTask(x: Txn, t: TaskId, row: Task): Txn {
    x.(tasks := x.tasks[t := row])
  }

  function PutShard(x: Txn, s: ShardId, row: Shard): Txn {
    x.(shards := x.shards[s := row])
  }

  /******* One statement *******/

  /** The choices a statement leaves open: ties in ORDER BY, and the order of a bulk update. */
  ghost predicate Choice(db: Tables, p: Proc, luck: Luck) {
    var v, pick, note := View(db, p.txn), luck.pick, luck.note;
    match p.prog
    case LeaseSelect(q, _) => IsNext(v, q, pick) || forall y :: !Eligible(v, q, y)
    case CancelShards(_, _, _, _, _, todo) => todo != {} ==> pick in todo
    case Resolve(r, t, _, _) => r.ask.AskEnd? && Resolved(v, t, Fallback(r.ask.outcome), note)
    case _ => true
  }

  /** Run the next statement; `x` is the process's transaction after taking the locks it wanted. */
  ghost function Advance(db: Tables, now: Time, p: Proc, x: Txn, luck: Luck): Result {
    var v, pick := View(db, p.txn), luck.pick;
    match p.prog
    case ReadShard(r) => if r.shard in v.shards then Continue(Proc(x, LockTask(r, v.shards[r.shard]))) else Quit
    case LockTask(r, stale) => AfterLock(v, x, r, stale)
    case MoveShard(r, t, seen) => AfterMove(v, now, x, r, t, seen)
    case WriteOutput(r, t, at) =>
      if r.shard in v.shards && r.ask.AskEnd? && r.ask.outcome.Success?
      then Continue(Proc(PutShard(x, r.shard, OutputRow(v.shards[r.shard], r.ask.outcome.key, r.ask.outcome.sha)), Reload(r, t, at)))
      else Quit
    case MarkTask(r, t, seen, at) =>
      if t in v.tasks && !v.tasks[t].status.Cancelled?
      then Continue(Proc(PutTask(x, t, RunSeen(v.tasks[t], seen, r.now)), Commit(Some(Start(r.shard, r.now, at)), None, None)))
      else Quit
    case Reload(r, t, at) => AfterReload(v, x, r, t, at)
    case CountActive(r, t, at) =>
      if HasActive(v, t) then Continue(Proc(x, FinishCommit(r, at, at, "", None))) else Continue(Proc(x, CountFailed(r, t, at)))
    case CountFailed(r, t, at) =>
      if HasFailed(v, t) then Continue(Proc(x, Resolve(r, t, at, now))) else Continue(Proc(x, CloseIt(r, t, at, now, false, "")))
    case Resolve(r, t, at, closedAt) => Continue(Proc(x, CloseIt(r, t, at, closedAt, true, luck.note)))
    case CloseIt(r, t, at, closedAt, failed, text) =>
      if t in v.tasks && !v.tasks[t].status.Terminal()
      then
        var row := CloseTask(v.tasks[t], if failed then TaskStatus.Failed else TaskStatus.Succeeded, text, closedAt);
        Continue(Proc(PutTask(x, t, row), FinishCommit(r, at, closedAt, text, NewPayload(t, row, !failed))))
      else if t in v.tasks && !v.tasks[t].status.Cancelled? then Continue(Proc(x, FinishCommit(r, at, at, "", None)))
      else Quit
    case LeaseSelect(q, tries) => if Eligible(v, q, pick) then Continue(Proc(x, LeaseLoad(q, tries, pick, db))) else Quit
    case LeaseLoad(q, tries, s, seenDb) => AfterLoad(v, x, q, tries, s, seenDb)
    case LeasePromote(q, tries, s, t, seenDb) =>
      if t in v.tasks && v.tasks[t].status.WaitingForAgents?
      then Continue(Proc(PutTask(x, t, PromoteTask(v.tasks[t])), LeaseCas(q, tries, s, t, TaskStatus.Queued, true, seenDb)))
      else Continue(Proc(x, LeaseCas(q, tries, s, t, TaskStatus.Queued, false, seenDb)))
    case LeaseCas(q, tries, s, t, status, _, seenDb) =>
      if s in v.shards && v.shards[s].status.Queued?
      then Continue(Proc(PutShard(x, s, LeaseRow(v.shards[s], q.agent)),
                         Commit(Some(Lease(s, q.agent, q.tenant, q.backend)), None, Some(Handover(s, t, status)))))
      else Retry(x, q, tries)
    case CancelRead(t, tenant) => if t in v.tasks then Continue(Proc(x, CancelTask(t, tenant, v.tasks[t]))) else Quit
    case CancelTask(t, tenant, seen) =>
      if t in v.tasks && v.tasks[t].tenant == tenant && !v.tasks[t].status.Terminal()
      then Continue(Proc(PutTask(x, t, CloseTask(v.tasks[t], TaskStatus.Cancelled, "", now)), CancelScan(t, tenant, seen, now)))
      else Quit
    case CancelScan(t, tenant, seen, at) =>
      Continue(Proc(x, CancelShards(t, tenant, seen, at, now,
        set y | y in v.shards && v.shards[y].task == t && !v.shards[y].status.Terminal())))
    case CancelShards(t, tenant, seen, at, shardsAt, todo) => AfterCancel(v, x, t, tenant, seen, at, shardsAt, todo, pick)
    case RollbackRead(s, why) => AfterRollbackRead(v, x, s, why)
    case RollbackLoad(s, t) =>
      if t in v.tasks then Continue(Proc(x, RollbackShard(s, {ShardStatus.Leased, ShardStatus.Running}, Some((t, v.tasks[t].status))))) else Quit
    case RollbackShard(s, from, snapshot) =>
      if s in v.shards && v.shards[s].status in from
      then
        var y := PutShard(x, s, RequeueRow(v.shards[s]));
        if snapshot.Some? && snapshot.value.1.WaitingForAgents? then Continue(Proc(y, RollbackTask(s, from, snapshot.value.0)))
        else Continue(Proc(y, Commit(Some(Rollback(s, from)), None, None)))
      else Quit
    case RollbackTask(s, from, t) =>
      if t in v.tasks && v.tasks[t].status.Queued?
      then Continue(Proc(PutTask(x, t, DemoteTask(v.tasks[t])), Commit(Some(Rollback(s, from)), None, None)))
      else Continue(Proc(x, Commit(Some(Rollback(s, from)), None, None)))
    // the payload is dispatched even if the cancelled row cannot be read again
    case Refresh(t, payload) =>
      if luck.read && t in v.tasks then Continue(Proc(x, Dispatch(payload.(finishedAt := v.tasks[t].finishedAt), true)))
      else Continue(Proc(x, Dispatch(payload, false)))
    // the lease is handed to the agent, or undone because it could not be sent
    case Handover(s, t, status) =>
      if luck.sent then Quit else Continue(Proc(x, RollbackShard(s, {ShardStatus.Leased}, Some((t, status)))))
    case Commit(_, _, _) => Quit
    case Dispatch(_, _) => Quit
  }

  function FinishCommit(r: Report, at: Time, closedAt: Time, note: string, hook: Option<Payload>): Prog
  {
    Commit(if r.ask.AskEnd? then Some(Finish(r.shard, r.ask.outcome, at, closedAt, note)) else None, hook, None)
  }

  /** `started_at` is decided by the task row read under the lock. */
  function RunSeen(row: Task, seen: Task, at: Time): Task {
    row.(status := TaskStatus.Running, startedAt := if seen.startedAt.None? then Some(at) else row.startedAt)
  }

  function AfterLock(v: Tables, x: Txn, r: Report, stale: Shard): Result {
    if stale.task !in v.tasks then Quit
    else if r.ask.AskEnd? && r.ask.outcome.Success? && stale.status.Succeeded? && stale.outputKey != "" then
      Continue(Proc(x, Commit(None, None, None)))
    else if v.tasks[stale.task].status.Cancelled? then Quit
    else Continue(Proc(x, MoveShard(r, stale.task, v.tasks[stale.task])))
  }

  function AfterMove(v: Tables, now: Time, x: Txn, r: Report, t: TaskId, seen: Task): Result {
    if r.ask.AskNothing? then Continue(Proc(x, Commit(None, None, None)))
    else if r.shard !in v.shards || v.shards[r.shard].status != Expected(r.ask) then Quit
    else
      var row := v.shards[r.shard];
      if r.ask.AskRunning? then Continue(Proc(PutShard(x, r.shard, StartRow(row, now)), MarkTask(r, t, seen, now)))
      else if r.ask.outcome.Success? then Continue(Proc(PutShard(x, r.shard, SucceedRow(row, now)), WriteOutput(r, t, now)))
      else Continue(Proc(PutShard(x, r.shard, FailRow(row, now, r.ask.outcome.message)), Reload(r, t, now)))
  }

  function AfterReload(v: Tables, x: Txn, r: Report, t: TaskId, at: Time): Result {
    if t !in v.tasks || v.tasks[t].status.Cancelled? then Quit
    else if v.tasks[t].status.Terminal() then Continue(Proc(x, FinishCommit(r, at, at, "", None)))
    else Continue(Proc(x, CountActive(r, t, at)))
  }

  function Retry(x: Txn, q: LeaseCall, tries: nat): Result {
    if tries + 1 < MAX_TRIES then Continue(Proc(x, LeaseSelect(q, tries + 1))) else Quit
  }

  function AfterLoad(v: Tables, x: Txn, q: LeaseCall, tries: nat, s: ShardId, seenDb: Tables): Result {
    if s !in v.shards || v.shards[s].task !in v.tasks || v.tasks[v.shards[s].task].tenant != q.tenant then Quit
    else
      var t := v.shards[s].task;
      if v.tasks[t].status.WaitingForAgents? then Continue(Proc(x, LeasePromote(q, tries, s, t, seenDb)))
      else if v.tasks[t].status.Leasable() then Continue(Proc(x, LeaseCas(q, tries, s, t, v.tasks[t].status, false, seenDb)))
      else Retry(x, q, tries)
  }

  function AfterCancel(v: Tables, x: Txn, t: TaskId, tenant: TenantId, seen: Task, at: Time, shardsAt: Time,
                       todo: set<ShardId>, pick: ShardId): Result {
    if todo == {} then
      Continue(Proc(x, Commit(Some(Cancel(t, tenant, at, shardsAt)), None,
        var payload := NewPayload(t, seen.(status := TaskStatus.Cancelled, lastError := ""), false);
        if payload.Some? then Some(Refresh(t, payload.value)) else None)))
    else if pick in v.shards && !v.shards[pick].status.Terminal() then
      Continue(Proc(PutShard(x, pick, CancelRow(v.shards[pick], shardsAt)),
                    CancelShards(t, tenant, seen, at, shardsAt, todo - {pick})))
    else Continue(Proc(x, CancelShards(t, tenant, seen, at, shardsAt, todo - {pick})))
  }

  function AfterRollbackRead(v: Tables, x: Txn, s: ShardId, why: Why): Result {
    if s !in v.shards then Quit
    else
      var row := v.shards[s];
      match why
      case TimedOut(agent, tenant, backend) =>
        if (row.agent == Some(agent) || row.status.Terminal()) && Owned(v, row.task, tenant, backend)
        then Continue(Proc(x, RollbackLoad(s, row.task))) else Quit
      case Orphan(registered, cutoff) =>
        if row.status.Held() && row.agent.Some? && row.agent.value !in registered && row.startedAt.Some? && row.startedAt.value < cutoff
        then Continue(Proc(x, RollbackLoad(s, row.task))) else Quit
      case AgentIdle(agent) =>
        if row.status.Held() && row.agent == Some(agent) then Continue(Proc(x, RollbackShard(s, {row.status}, None))) else Quit
  }

  /** The task exists and belongs to the tenant and backend. */
  predicate Owned(db: Tables, t: TaskId, tenant: TenantId, backend: string) {
    t in db.tasks && db.tasks[t].tenant == tenant && tenant in db.tenants && db.tenants[tenant].backend == backend
  }

  /******* The whole system *******/

  /** A payload handed to the HTTP client. */
  datatype Sent = Sent(payload: Payload, reread: bool)

  /**
   `log` lists the committed events and `db` is the committed state. `ids` binds
   agent ids to the identity they registered with, `recent` holds the shards
   leased since the server started, `sent` the dispatched hook payloads and
   `lost` those a restart dropped before they were dispatched.
   */
  datatype Sys = Sys(
    db: Tables,
    log: seq<Event>,
    procs: map<Pid, Proc>,
    now: Time,
    ids: map<AgentId, Identity>,
    recent: set<ShardId>,
    sent: seq<Sent>,
    lost: set<Payload>)

  datatype Action =
    | Tick(to: Time)
    | Spawn(pid: Pid, prog: Prog)
    | Statement(pid: Pid, luck: Luck)
    | CommitNow(pid: Pid)
    | Abort(pid: Pid)
    | Send(pid: Pid)
    | Direct(event: Event)
    | Register(agent: AgentId, id: Identity)
    | Restart

  const START := Sys(EMPTY, [], map[], 0, map[], {}, [], {})

  predicate TaskFree(procs: map<Pid, Proc>, pid: Pid, t: TaskId) {
    forall q :: q in procs && q != pid ==> t !in procs[q].txn.taskLocks
  }

  predicate ShardFree(procs: map<Pid, Proc>, pid: Pid, s: ShardId) {
    forall q :: q in procs && q != pid ==> s !in procs[q].txn.shardLocks
  }

  /** No other process holds the lock the next statement needs. */
  ghost predicate Unblocked(sys: Sys, pid: Pid, pick: ShardId)
    requires pid in sys.procs
  {
    var p := sys.procs[pid];
    && (WantsTask(sys.db, p).Some? ==> TaskFree(sys.procs, pid, WantsTask(sys.db, p).value))
    && (WantsShard(sys.db, p, pick).Some? ==> ShardFree(sys.procs, pid, WantsShard(sys.db, p, pick).value))
  }

  /** The first statement of each call; a report reads the clock before its transaction. */
  predicate Entry(sys: Sys, prog: Prog) {
    match prog
    case ReadShard(r) => r.now == sys.now
    case LeaseSelect(q, tries) => tries == 0 && q.agent in sys.ids && sys.ids[q.agent] == Identity(q.tenant, q.backend)
    case CancelRead(_, _) => true
    case RollbackRead(_, _) => true
    case _ => false
  }

  /** Inserts and single-statement updates outside the four calls. */
  ghost predicate Standalone(sys: Sys, e: Event) {
    && Enabled(sys.db, e)
    && match e
       case AddTenant(_, _) => true
       case Submit(_, _, _, at, _) => at == sys.now
       case Poll(t, _, _) => forall q :: q in sys.procs ==> t !in sys.procs[q].txn.taskLocks
       case _ => false
  }

  /** The payload with the finish time of the task's row. */
  function Told(db: Tables, p: Payload): Payload {
    if p.task in db.tasks then p.(finishedAt := db.tasks[p.task].finishedAt) else p
  }

  /** The outcome the process still has to dispatch. */
  function Owes(db: Tables, prog: Prog): Option<Payload> {
    match prog
    case Dispatch(payload, _) => Some(Told(db, payload))
    case Refresh(_, payload) => Some(Told(db, payload))
    case _ => None
  }

  /** All outcomes still to be dispatched. */
  function Debts(db: Tables, procs: map<Pid, Proc>): set<Payload> {
    set pid | pid in procs && Owes(db, procs[pid].prog).Some? :: Owes(db, procs[pid].prog).value
  }

  ghost predicate Can(sys: Sys, a: Action) {
    match a
    case Tick(to) => sys.now <= to
    case Spawn(pid, prog) => pid !in sys.procs && Entry(sys, prog)
    case Statement(pid, luck) =>
      && pid in sys.procs && !sys.procs[pid].prog.Commit? && !sys.procs[pid].prog.Dispatch?
      && Choice(sys.db, sys.procs[pid], luck) && Unblocked(sys, pid, luck.pick)
    case CommitNow(pid) => pid in sys.procs && sys.procs[pid].prog.Commit?
    case Abort(pid) => pid in sys.procs && Owes(sys.db, sys.procs[pid].prog).None?
    case Send(pid) => pid in sys.procs && sys.procs[pid].prog.Dispatch?
    case Direct(e) => Standalone(sys, e)
    case Register(agent, id) => agent in sys.ids ==> sys.ids[agent] == id
    case Restart => true
  }

  ghost function AfterStatement(sys: Sys, pid: Pid, luck: Luck): Sys
    requires pid in sys.procs
  {
    var p := sys.procs[pid];
    match Advance(sys.db, sys.now, p, WithLocks(sys.db, p, luck.pick), luck)
    case Continue(p') => sys.(procs := sys.procs[pid := p'])
    case Quit => sys.(procs := sys.procs - {pid})
  }

  /** What the process does once its transaction is committed. */
  function AfterCommit(prog: Prog): Option<Prog>
    requires prog.Commit?
  {
    if prog.hook.Some? then Some(Dispatch(prog.hook.value, true)) else prog.next
  }

  ghost function Committed(sys: Sys, pid: Pid): Sys
    requires pid in sys.procs && sys.procs[pid].prog.Commit?
  {
    var p := sys.procs[pid];
    var procs' := if AfterCommit(p.prog).Some? then sys.procs[pid := Proc(IDLE, AfterCommit(p.prog).value)] else sys.procs - {pid};
    if p.prog.event.None? then sys.(procs := procs')
    else sys.(
      db := View(sys.db, p.txn),
      log := sys.log + [p.prog.event.value],
      procs := procs',
      recent := if p.prog.event.value.Lease? then sys.recent + {p.prog.event.value.shard} else sys.recent)
  }

  ghost function Next(sys: Sys, a: Action): Sys
    requires Can(sys, a)
  {
    match a
    case Tick(to) => sys.(now := to)
    case Spawn(pid, prog) => sys.(procs := sys.procs[pid := Proc(IDLE, prog)])
    case Statement(pid, luck) => AfterStatement(sys, pid, luck)
    case CommitNow(pid) => Committed(sys, pid)
    case Abort(pid) => sys.(procs := sys.procs - {pid})
    case Send(pid) => sys.(procs := sys.procs - {pid}, sent := sys.sent + [Sent(sys.procs[pid].prog.payload, sys.procs[pid].prog.reread)])
    case Direct(e) => sys.(db := Apply(sys.db, e), log := sys.log + [e])
    case Register(agent, id) => sys.(ids := sys.ids[agent := id])
    case Restart =>
      sys.(procs := map[], ids := map[], recent := {}, lost := sys.lost + Debts(sys.db, sys.procs))
  }

  /** Sequences of actions the system can take from its empty start. */
  ghost predicate Feasible(actions: seq<Action>)
    decreases |actions|, 0
  {
    |actions| == 0 || (Feasible(Front(actions)) && Can(Run(Front(actions)), Last(actions)))
  }

  ghost function Run(actions: seq<Action>): Sys
    requires Feasible(actions)
    decreases |actions|, 1
  {
    if |actions| == 0 then START else Next(Run(Front(actions)), Last(actions))
  }
}
