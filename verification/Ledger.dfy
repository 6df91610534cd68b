/**
 The task and shard lifecycle as a ledger of committed transactions.

 Each `Event` is what one committed transaction does to the tables. `Enabled`
 collects the guards of its statements and `TaskWrites`/`ShardWrites` its row
 updates, so `Apply` is the committed effect. `Exec` replays a whole log.
 Module `Interleaving` shows that transactions split into statements produce
 exactly such logs.
 */
module Ledger {
  import opened Rows

  datatype Outcome = Success(key: string, sha: string) | Failure(message: string)

  datatype Event =
    | AddTenant(tenant: TenantId, tenantRow: Tenant)
    | Submit(task: TaskId, tenant: TenantId, hookUrl: string, at: Time, scripts: map<ShardId, string>)
    | Poll(task: TaskId, to: TaskStatus, note: string)
    | Lease(shard: ShardId, agent: AgentId, tenant: TenantId, backend: string)
    | Start(shard: ShardId, reportedAt: Time, at: Time)
    | Finish(shard: ShardId, outcome: Outcome, at: Time, closedAt: Time, note: string)
    | Cancel(task: TaskId, tenant: TenantId, at: Time, shardsAt: Time)
    | Rollback(shard: ShardId, from: set<ShardStatus>)

  datatype Payload = Payload(
    task: TaskId,
    tenant: TenantId,
    status: TaskStatus,
    lastError: string,
    finishedAt: Option<Time>,
    resultAvailable: bool,
    url: string)

  const DEFAULT_FAILURE := "task failed because one or more shards failed"

  /******* What a transaction looks at *******/

  ghost predicate HasShard(db: Tables, t: TaskId) {
    exists x :: IsShardOf(db, x, t)
  }

  /** Some shard of `t` is QUEUED, LEASED or RUNNING. */
  ghost predicate HasActive(db: Tables, t: TaskId) {
    exists x :: IsShardOf(db, x, t) && !db.shards[x].status.Terminal()
  }

  ghost predicate HasFailed(db: Tables, t: TaskId) {
    exists x :: IsShardOf(db, x, t) && db.shards[x].status.Failed?
  }

  ghost predicate HasCancelled(db: Tables, t: TaskId) {
    exists x :: IsShardOf(db, x, t) && db.shards[x].status.Cancelled?
  }

  /** Some shard of `t` other than `s` is still active, respectively failed. */
  ghost predicate OthersActive(db: Tables, t: TaskId, s: ShardId) {
    exists x :: IsShardOf(db, x, t) && x != s && !db.shards[x].status.Terminal()
  }

  ghost predicate OthersFailed(db: Tables, t: TaskId, s: ShardId) {
    exists x :: IsShardOf(db, x, t) && x != s && db.shards[x].status.Failed?
  }

  /** No timestamp recorded on the task or its shards is later than `at`. */
  ghost predicate Fresh(db: Tables, t: TaskId, at: Time) {
    && t in db.tasks
    && NotAfter(db.tasks[t].startedAt, Some(at))
    && forall x :: IsShardOf(db, x, t) ==>
        NotAfter(db.shards[x].startedAt, Some(at)) && NotAfter(db.shards[x].finishedAt, Some(at))
  }

  /** A failed shard of `t` that carries an error text. */
  predicate Blames(db: Tables, x: ShardId, t: TaskId) {
    IsShardOf(db, x, t) && db.shards[x].status.Failed? && db.shards[x].lastError != ""
  }

  /** `note` is the error of a most recently finished blaming shard, or else the fallback. */
  ghost predicate Resolved(db: Tables, t: TaskId, fallback: string, note: string) {
    || (exists x :: Blames(db, x, t) && db.shards[x].lastError == note &&
          forall y :: Blames(db, y, t) ==> NotAfter(db.shards[y].finishedAt, db.shards[x].finishedAt))
    || ((forall x :: !Blames(db, x, t)) && note == if fallback != "" then fallback else DEFAULT_FAILURE)
  }

  function Fallback(o: Outcome): string {
    if o.Failure? then o.message else ""
  }

  function FinishRow(s: Shard, o: Outcome, at: Time): Shard {
    match o
    case Success(key, sha) => OutputRow(SucceedRow(s, at), key, sha)
    case Failure(message) => FailRow(s, at, message)
  }

  function WithShard(db: Tables, s: ShardId, row: Shard): Tables {
    db.(shards := db.shards[s := row])
  }

  /******* Guards *******/

  /** The rows an event is about exist. */
  predicate Addressed(db: Tables, e: Event) {
    match e
    case Poll(t, _, _) => t in db.tasks
    case Cancel(t, _, _, _) => t in db.tasks
    case Lease(s, _, _, _) => s in db.shards && db.shards[s].task in db.tasks
    case Start(s, _, _) => s in db.shards && db.shards[s].task in db.tasks
    case Finish(s, _, _, _, _) => s in db.shards && db.shards[s].task in db.tasks
    case Rollback(s, _) => s in db.shards
    case _ => true
  }

  ghost predicate Enabled(db: Tables, e: Event) {
    && Addressed(db, e)
    && match e
       case AddTenant(tenant, _) => tenant !in db.tenants
       case Submit(task, tenant, _, _, scripts) =>
         task !in db.tasks && tenant in db.tenants && scripts.Keys != {} && scripts.Keys !! db.shards.Keys
       case Poll(task, to, _) => db.tasks[task].status.Pending? && PollTarget(to)
       case Lease(s, _, tenant, backend) => LeaseGuard(db, s, tenant, backend)
       case Start(s, reportedAt, at) => StartGuard(db, s, reportedAt, at)
       case Finish(s, o, at, closedAt, note) => FinishGuard(db, s, at, closedAt) && NoteGuard(db, s, o, at, note)
       case Cancel(t, tenant, at, shardsAt) => CancelGuard(db, t, tenant, at, shardsAt)
       case Rollback(s, from) => db.shards[s].status in from && from <= {ShardStatus.Leased, ShardStatus.Running}
  }

  /** The statuses the pending-task poller writes. */
  predicate PollTarget(to: TaskStatus) {
    to.Pending? || to.WaitingForAgents? || to.Failed?
  }

  predicate LeaseGuard(db: Tables, s: ShardId, tenant: TenantId, backend: string)
    requires s in db.shards && db.shards[s].task in db.tasks
  {
    var t := db.tasks[db.shards[s].task];
    && db.shards[s].status.Queued? && t.status.Leasable() && t.tenant == tenant
    && tenant in db.tenants && db.tenants[tenant].backend == backend
  }

  ghost predicate StartGuard(db: Tables, s: ShardId, reportedAt: Time, at: Time)
    requires s in db.shards && db.shards[s].task in db.tasks
  {
    && db.shards[s].status.Leased? && !db.tasks[db.shards[s].task].status.Cancelled?
    && reportedAt <= at && Fresh(db, db.shards[s].task, at)
  }

  ghost predicate FinishGuard(db: Tables, s: ShardId, at: Time, closedAt: Time)
    requires s in db.shards && db.shards[s].task in db.tasks
  {
    && db.shards[s].status.Running? && !db.tasks[db.shards[s].task].status.Cancelled?
    && at <= closedAt && Fresh(db, db.shards[s].task, at)
  }

  /** The error text written when the task closes as failed. */
  ghost predicate NoteGuard(db: Tables, s: ShardId, o: Outcome, at: Time, note: string)
    requires s in db.shards && db.shards[s].task in db.tasks
  {
    var t := db.shards[s].task;
    Closing(db, t, s) && Fails(db, t, s, o) ==>
      Resolved(WithShard(db, s, FinishRow(db.shards[s], o, at)), t, Fallback(o), note)
  }

  ghost predicate CancelGuard(db: Tables, t: TaskId, tenant: TenantId, at: Time, shardsAt: Time)
    requires t in db.tasks
  {
    db.tasks[t].tenant == tenant && !db.tasks[t].status.Terminal() && at <= shardsAt && Fresh(db, t, at)
  }

  /** Recompute closes the task when the reported shard was its last active one. */
  ghost predicate Closing(db: Tables, t: TaskId, s: ShardId)
    requires t in db.tasks
  {
    !db.tasks[t].status.Terminal() && !OthersActive(db, t, s)
  }

  ghost predicate Fails(db: Tables, t: TaskId, s: ShardId, o: Outcome) {
    o.Failure? || OthersFailed(db, t, s)
  }

  /******* Effects *******/

  ghost function FinalTask(db: Tables, t: TaskId, s: ShardId, o: Outcome, closedAt: Time, note: string): Task
    requires t in db.tasks
  {
    if Fails(db, t, s, o) then CloseTask(db.tasks[t], TaskStatus.Failed, note, closedAt)
    else CloseTask(db.tasks[t], TaskStatus.Succeeded, "", closedAt)
  }

  ghost function TaskWrites(db: Tables, e: Event): map<TaskId, Task>
    requires Addressed(db, e)
  {
    match e
    case AddTenant(_, _) => map[]
    case Submit(task, tenant, hookUrl, at, scripts) =>
      map[task := Task(tenant, TaskStatus.Pending, hookUrl, |scripts.Keys|, at, None, None, "")]
    case Poll(task, to, note) => map[task := db.tasks[task].(status := to, lastError := note)]
    case Lease(s, _, _, _) =>
      var t := db.shards[s].task;
      if db.tasks[t].status.WaitingForAgents? then map[t := PromoteTask(db.tasks[t])] else map[]
    case Start(s, reportedAt, _) =>
      var t := db.shards[s].task;
      map[t := RunTask(db.tasks[t], reportedAt)]
    case Finish(s, o, at, closedAt, note) =>
      var t := db.shards[s].task;
      if Closing(db, t, s) then map[t := FinalTask(db, t, s, o, closedAt, note)] else map[]
    case Cancel(t, _, at, _) => map[t := CloseTask(db.tasks[t], TaskStatus.Cancelled, "", at)]
    case Rollback(_, _) => map[]
  }

  ghost function ShardWrites(db: Tables, e: Event): map<ShardId, Shard>
    requires Addressed(db, e)
  {
    match e
    case AddTenant(_, _) => map[]
    case Submit(task, _, _, _, scripts) => map x | x in scripts :: NewShard(task, scripts[x])
    case Poll(_, _, _) => map[]
    case Lease(s, agent, _, _) => map[s := LeaseRow(db.shards[s], agent)]
    case Start(s, _, at) => map[s := StartRow(db.shards[s], at)]
    case Finish(s, o, at, _, _) => map[s := FinishRow(db.shards[s], o, at)]
    case Cancel(t, _, _, at) =>
      map x | x in db.shards && db.shards[x].task == t && !db.shards[x].status.Terminal() :: CancelRow(db.shards[x], at)
    case Rollback(s, _) => map[s := RequeueRow(db.shards[s])]
  }

  function NewShard(task: TaskId, script: string): Shard {
    Shard(task, script, ShardStatus.Queued, None, "", "", None, None, "")
  }

  ghost function Apply(db: Tables, e: Event): Tables
    requires Addressed(db, e)
  {
    Tables(if e.AddTenant? then db.tenants[e.tenant := e.tenantRow] else db.tenants,
           db.tasks + TaskWrites(db, e),
           db.shards + ShardWrites(db, e))
  }

  /** The completion-hook payload the transaction hands to its caller, if any. */
  ghost function HookOf(db: Tables, e: Event): Option<Payload>
    requires Addressed(db, e)
  {
    match e
    case Finish(s, o, _, closedAt, note) =>
      var t := db.shards[s].task;
      if Closing(db, t, s) then NewPayload(t, FinalTask(db, t, s, o, closedAt, note), !Fails(db, t, s, o)) else None
    case Cancel(t, _, at, _) => NewPayload(t, CloseTask(db.tasks[t], TaskStatus.Cancelled, "", at), false)
    case _ => None
  }

  function NewPayload(t: TaskId, row: Task, resultAvailable: bool): Option<Payload> {
    if row.hookUrl == "" then None
    else Some(Payload(t, row.tenant, row.status, row.lastError, row.finishedAt, resultAvailable, row.hookUrl))
  }

  /******* Logs *******/

  ghost predicate Legal(log: seq<Event>)
    decreases |log|, 0
  {
    |log| == 0 || (Legal(Front(log)) && Enabled(Exec(Front(log)), Last(log)))
  }

  ghost function Exec(log: seq<Event>): Tables
    requires Legal(log)
    decreases |log|, 1
  {
    if |log| == 0 then EMPTY else Apply(Exec(Front(log)), Last(log))
  }

  function Front<T>(s: seq<T>): seq<T>
    requires |s| > 0
  {
    s[..|s| - 1]
  }

  function Last<T>(s: seq<T>): T
    requires |s| > 0
  {
    s[|s| - 1]
  }

  /******* The joint invariant of the task and shard tables *******/

  /** What a shard row may look like under its task row. */
  ghost predicate ShardFits(t: Task, s: Shard) {
    // statuses
    && (t.status.Pending? || t.status.WaitingForAgents? ==> s.status.Queued?)
    && (t.status.Queued? ==> s.status.Queued? || s.status.Leased?)
    && (t.status.Succeeded? ==> s.status.Succeeded?)
    && (t.status.Failed? ==> s.status.Queued? || s.status.Succeeded? || s.status.Failed?)
    && (t.status.Cancelled? ==> s.status.Terminal())
    && (s.status.Running? ==> t.status.Running?)
    && (s.status.Cancelled? ==> t.status.Cancelled?)
    // assignment
    && (s.status.Queued? || s.status.Cancelled? ==> s.agent.None?)
    && (s.status.Held() ==> s.agent.Some?)
  }

  /** The order of the four lifecycle timestamps. */
  ghost predicate TimesFit(t: Task, s: Shard) {
    && (t.startedAt.None? ==> s.startedAt.None?)
    && NotAfter(t.startedAt, s.startedAt)
    && NotAfter(s.startedAt, s.finishedAt)
    && (s.status.Running? || s.status.Succeeded? || s.status.Failed? ==> s.startedAt.Some?)
    && (s.status.Terminal() <==> s.finishedAt.Some?)
    && (t.status.Succeeded? || (t.status.Failed? && s.status.Terminal()) ==>
        t.finishedAt.Some? && NotAfter(s.finishedAt, t.finishedAt))
  }

  ghost predicate WellFormed(db: Tables) {
    && (forall x :: x in db.shards ==> db.shards[x].task in db.tasks)
    && (forall t :: t in db.tasks ==> db.tasks[t].tenant in db.tenants)
  }

  ghost predicate RowsFit(db: Tables)
    requires WellFormed(db)
  {
    forall x :: x in db.shards ==>
      ShardFits(db.tasks[db.shards[x].task], db.shards[x]) && TimesFit(db.tasks[db.shards[x].task], db.shards[x])
  }

  /** What the shards of one task look like together. */
  ghost predicate TaskFits(db: Tables, t: TaskId)
    requires t in db.tasks
  {
    && HasShard(db, t)
    && (!db.tasks[t].status.Terminal() ==> HasActive(db, t))
    && (db.tasks[t].status.Failed? ==> AllQueued(db, t) || (HasFailed(db, t) && AllTerminal(db, t)))
    && (db.tasks[t].status.Cancelled? ==> HasCancelled(db, t))
  }

  ghost predicate AllQueued(db: Tables, t: TaskId) {
    forall x :: IsShardOf(db, x, t) ==> db.shards[x].status.Queued?
  }

  ghost predicate AllTerminal(db: Tables, t: TaskId) {
    forall x :: IsShardOf(db, x, t) ==> db.shards[x].status.Terminal()
  }

  /** An open task has no finish time; one that succeeded or was cancelled has one. */
  ghost predicate FinishFits(t: Task) {
    && (!t.status.Terminal() ==> t.finishedAt.None?)
    && (t.status.Succeeded? || t.status.Cancelled? ==> t.finishedAt.Some?)
  }

  ghost predicate JointInv(db: Tables) {
    && WellFormed(db)
    && RowsFit(db)
    && (forall t :: t in db.tasks ==> TaskFits(db, t))
    && (forall t :: t in db.tasks ==> FinishFits(db.tasks[t]))
  }

  /******* Row by row *******/

  /** The row a task or shard has after the event. */
  ghost function TaskAfter(db: Tables, e: Event, t: TaskId): Task
    requires Addressed(db, e) && t in db.tasks
  {
    match e
    case Poll(u, to, note) => if u == t then db.tasks[t].(status := to, lastError := note) else db.tasks[t]
    case Lease(s, _, _, _) =>
      if db.shards[s].task == t && db.tasks[t].status.WaitingForAgents? then PromoteTask(db.tasks[t]) else db.tasks[t]
    case Start(s, reportedAt, _) =>
      if db.shards[s].task == t then RunTask(db.tasks[t], reportedAt) else db.tasks[t]
    case Finish(s, o, _, closedAt, note) =>
      if db.shards[s].task == t && Closing(db, t, s) then FinalTask(db, t, s, o, closedAt, note) else db.tasks[t]
    case Cancel(u, _, at, _) =>
      if u == t then CloseTask(db.tasks[t], TaskStatus.Cancelled, "", at) else db.tasks[t]
    case _ => db.tasks[t]
  }

  ghost function ShardAfter(db: Tables, e: Event, x: ShardId): Shard
    requires x in db.shards
  {
    var row := db.shards[x];
    match e
    case Lease(s, agent, _, _) => if x == s then LeaseRow(row, agent) else row
    case Start(s, _, at) => if x == s then StartRow(row, at) else row
    case Finish(s, o, at, _, _) => if x == s then FinishRow(row, o, at) else row
    case Cancel(t, _, _, at) => if row.task == t && !row.status.Terminal() then CancelRow(row, at) else row
    case Rollback(s, _) => if x == s then RequeueRow(row) else row
    case _ => row
  }

  lemma ApplyTask(db: Tables, e: Event, t: TaskId)
    requires Addressed(db, e) && t in db.tasks
    requires e.Submit? ==> t != e.task
    ensures t in Apply(db, e).tasks && Apply(db, e).tasks[t] == TaskAfter(db, e, t)
  {
  }

  lemma ApplyShard(db: Tables, e: Event, x: ShardId)
    requires Addressed(db, e) && x in db.shards
    requires e.Submit? ==> x !in e.scripts
    ensures x in Apply(db, e).shards && Apply(db, e).shards[x] == ShardAfter(db, e, x)
  {
  }

  /** Columns no event changes. */
  lemma FixedColumns(db: Tables, e: Event, t: TaskId, x: ShardId)
    requires Addressed(db, e)
    ensures t in db.tasks ==>
      var a, b := db.tasks[t], TaskAfter(db, e, t);
      b.tenant == a.tenant && b.hookUrl == a.hookUrl && b.createdAt == a.createdAt && b.shardCount == a.shardCount
    ensures x in db.shards ==>
      ShardAfter(db, e, x).task == db.shards[x].task && ShardAfter(db, e, x).script == db.shards[x].script
  {
  }

  /** Only a submission adds rows. */
  lemma ApplyNew(db: Tables, e: Event, t: TaskId, x: ShardId)
    requires Addressed(db, e)
    ensures t in Apply(db, e).tasks && t !in db.tasks ==> e.Submit? && t == e.task
    ensures x in Apply(db, e).shards && x !in db.shards ==> e.Submit? && x in e.scripts
    ensures e.Submit? ==> e.task in Apply(db, e).tasks && Apply(db, e).tasks[e.task].tenant == e.tenant
    ensures e.Submit? && x in e.scripts ==>
      x in Apply(db, e).shards && Apply(db, e).shards[x] == NewShard(e.task, e.scripts[x])
  {
  }

  /******* Every event keeps the joint invariant *******/

  ghost predicate PairFits(t: Task, s: Shard) {
    ShardFits(t, s) && TimesFit(t, s)
  }

  ghost predicate PairInv(db: Tables, x: ShardId) {
    x in db.shards && db.shards[x].task in db.tasks && PairFits(db.tasks[db.shards[x].task], db.shards[x])
  }

  lemma LeaseKeepsPair(db: Tables, e: Event, x: ShardId)
    requires Addressed(db, e) && e.Lease? && LeaseGuard(db, e.shard, e.tenant, e.backend) && PairInv(db, x)
    ensures PairFits(TaskAfter(db, e, db.shards[x].task), ShardAfter(db, e, x))
  {
  }

  lemma StartKeepsPair(db: Tables, e: Event, x: ShardId)
    requires Addressed(db, e) && e.Start? && StartGuard(db, e.shard, e.reportedAt, e.at)
    requires PairInv(db, x) && PairInv(db, e.shard)
    ensures PairFits(TaskAfter(db, e, db.shards[x].task), ShardAfter(db, e, x))
  {
  }

  lemma FinishKeepsPair(db: Tables, e: Event, x: ShardId)
    requires Addressed(db, e) && e.Finish? && FinishGuard(db, e.shard, e.at, e.closedAt)
    requires PairInv(db, x) && PairInv(db, e.shard)
    ensures PairFits(TaskAfter(db, e, db.shards[x].task), ShardAfter(db, e, x))
  {
    var t := db.shards[x].task;
    assert IsShardOf(db, x, t) && IsShardOf(db, e.shard, db.shards[e.shard].task);
  }

  lemma CancelKeepsPair(db: Tables, e: Event, x: ShardId)
    requires Addressed(db, e) && e.Cancel? && CancelGuard(db, e.task, e.tenant, e.at, e.shardsAt) && PairInv(db, x)
    ensures PairFits(TaskAfter(db, e, db.shards[x].task), ShardAfter(db, e, x))
  {
  }

  lemma EventKeepsPair(db: Tables, e: Event, x: ShardId)
    requires Enabled(db, e) && PairInv(db, x) && (e.Start? || e.Finish? ==> PairInv(db, e.shard))
    ensures PairFits(TaskAfter(db, e, db.shards[x].task), ShardAfter(db, e, x))
  {
    match e
    case Lease(_, _, _, _) => LeaseKeepsPair(db, e, x);
    case Start(_, _, _) => StartKeepsPair(db, e, x);
    case Finish(_, _, _, _, _) => FinishKeepsPair(db, e, x);
    case Cancel(_, _, _, _) => CancelKeepsPair(db, e, x);
    case _ =>
  }

  /** `db'` is `db` after `e`, described row by row. */
  ghost predicate RowsAfter(db: Tables, e: Event, db': Tables)
    requires Addressed(db, e)
  {
    && (forall t :: t in db.tasks ==> t in db'.tasks && db'.tasks[t] == TaskAfter(db, e, t))
    && (forall x :: x in db.shards ==> x in db'.shards && db'.shards[x] == ShardAfter(db, e, x))
    && (forall t :: t in db'.tasks && t !in db.tasks ==> e.Submit? && t == e.task && db'.tasks[t].tenant == e.tenant)
    && (forall x :: x in db'.shards && x !in db.shards ==>
        e.Submit? && x in e.scripts && db'.shards[x] == NewShard(e.task, e.scripts[x]))
    && (e.Submit? ==> e.task in db'.tasks && db'.tasks[e.task].status.Pending? && e.scripts.Keys <= db'.shards.Keys)
    && (e.Submit? ==> db'.tasks[e.task].finishedAt.None?)
    && (forall n :: n in db.tenants ==> n in db'.tenants && db'.tenants[n] == db.tenants[n])
  }

  lemma ApplyRows(db: Tables, e: Event)
    requires Enabled(db, e)
    ensures RowsAfter(db, e, Apply(db, e))
  {
    var db' := Apply(db, e);
    forall t | t in db.tasks ensures t in db'.tasks && db'.tasks[t] == TaskAfter(db, e, t) { ApplyTask(db, e, t); }
    forall x | x in db.shards ensures x in db'.shards && db'.shards[x] == ShardAfter(db, e, x) { ApplyShard(db, e, x); }
    forall t | t in db'.tasks && t !in db.tasks
      ensures e.Submit? && t == e.task && db'.tasks[t].tenant == e.tenant
    {
      ApplyNew(db, e, t, 0);
    }
    forall x | x in db'.shards && x !in db.shards
      ensures e.Submit? && x in e.scripts && db'.shards[x] == NewShard(e.task, e.scripts[x])
    {
      ApplyNew(db, e, 0, x);
    }
  }

  lemma KeepsWellFormed(db: Tables, e: Event, db': Tables)
    requires Enabled(db, e) && RowsAfter(db, e, db') && WellFormed(db)
    ensures WellFormed(db')
  {
    forall x | x in db'.shards ensures db'.shards[x].task in db'.tasks {
      if x in db.shards { FixedColumns(db, e, 0, x); }
    }
    forall t | t in db'.tasks ensures db'.tasks[t].tenant in db'.tenants {
      if t in db.tasks { FixedColumns(db, e, t, 0); }
    }
  }

  lemma KeepsRowsFit(db: Tables, e: Event, db': Tables)
    requires Enabled(db, e) && RowsAfter(db, e, db') && WellFormed(db) && WellFormed(db') && RowsFit(db)
    ensures RowsFit(db')
  {
    forall x | x in db'.shards
      ensures PairFits(db'.tasks[db'.shards[x].task], db'.shards[x])
    {
      if x in db.shards {
        FixedColumns(db, e, 0, x);
        assert e.Start? || e.Finish? ==> PairInv(db, e.shard);
        EventKeepsPair(db, e, x);
      }
    }
  }

  /** The shards of a task are fixed at submission. */
  lemma SameShards(db: Tables, e: Event, db': Tables, t: TaskId, x: ShardId)
    requires Addressed(db, e) && RowsAfter(db, e, db') && t in db.tasks && (e.Submit? ==> e.task != t)
    ensures IsShardOf(db', x, t) <==> IsShardOf(db, x, t)
  {
    if x in db.shards { FixedColumns(db, e, 0, x); }
  }

  /** The heart of recompute: closing leaves every shard terminal, not closing leaves one active. */
  lemma FinishKeepsTaskFits(db: Tables, e: Event, db': Tables)
    requires e.Finish? && Addressed(db, e) && FinishGuard(db, e.shard, e.at, e.closedAt)
    requires RowsAfter(db, e, db') && PairInv(db, e.shard)
    ensures TaskFits(db', db.shards[e.shard].task)
  {
    var s, t := e.shard, db.shards[e.shard].task;
    SameShards(db, e, db', t, s);
    if OthersActive(db, t, s) {
      var a :| IsShardOf(db, a, t) && a != s && !db.shards[a].status.Terminal();
      SameShards(db, e, db', t, a);
    } else {
      forall x | IsShardOf(db', x, t)
        ensures db'.shards[x].status.Terminal()
      {
        SameShards(db, e, db', t, x);
      }
      if OthersFailed(db, t, s) {
        var f :| IsShardOf(db, f, t) && f != s && db.shards[f].status.Failed?;
        SameShards(db, e, db', t, f);
      }
    }
  }

  /** Events other than a finish of one of its shards keep an open task's shards active, a failed task's shards as they are. */
  lemma QuietEvent(db: Tables, e: Event, t: TaskId, x: ShardId)
    requires Enabled(db, e) && PairInv(db, x) && db.shards[x].task == t && (e.Finish? ==> db.shards[e.shard].task != t)
    requires e.Start? ==> PairInv(db, e.shard)
    ensures !TaskAfter(db, e, t).status.Terminal() ==> !db.tasks[t].status.Terminal()
    ensures !TaskAfter(db, e, t).status.Terminal() && !db.shards[x].status.Terminal() ==>
      !ShardAfter(db, e, x).status.Terminal()
    ensures TaskAfter(db, e, t).status.Failed? ==> ShardAfter(db, e, x).status == db.shards[x].status
    ensures TaskAfter(db, e, t).status.Failed? && !db.tasks[t].status.Failed? ==> db.shards[x].status.Queued?
  {
  }

  lemma OpenKeepsActive(db: Tables, e: Event, db': Tables, t: TaskId)
    requires Enabled(db, e) && RowsAfter(db, e, db') && WellFormed(db) && RowsFit(db)
    requires t in db.tasks && TaskFits(db, t) && (e.Finish? ==> db.shards[e.shard].task != t)
    ensures HasShard(db', t)
    ensures !db'.tasks[t].status.Terminal() ==> HasActive(db', t)
  {
    assert e.Start? ==> PairInv(db, e.shard);
    var y :| IsShardOf(db, y, t);
    SameShards(db, e, db', t, y);
    QuietEvent(db, e, t, y);
    if !db'.tasks[t].status.Terminal() {
      var a :| IsShardOf(db, a, t) && !db.shards[a].status.Terminal();
      SameShards(db, e, db', t, a);
      QuietEvent(db, e, t, a);
      assert !db'.shards[a].status.Terminal();
    }
  }

  lemma FailedKeepsShards(db: Tables, e: Event, db': Tables, t: TaskId)
    requires Enabled(db, e) && RowsAfter(db, e, db') && WellFormed(db) && RowsFit(db)
    requires t in db.tasks && TaskFits(db, t) && (e.Finish? ==> db.shards[e.shard].task != t)
    requires db'.tasks[t].status.Failed?
    ensures AllQueued(db', t) || (HasFailed(db', t) && AllTerminal(db', t))
  {
    assert e.Start? ==> PairInv(db, e.shard);
    forall x | IsShardOf(db', x, t)
      ensures IsShardOf(db, x, t) && db'.shards[x].status == db.shards[x].status
      ensures !db.tasks[t].status.Failed? ==> db.shards[x].status.Queued?
    {
      SameShards(db, e, db', t, x);
      QuietEvent(db, e, t, x);
    }
    if db.tasks[t].status.Failed? && HasFailed(db, t) {
      var f :| IsShardOf(db, f, t) && db.shards[f].status.Failed?;
      SameShards(db, e, db', t, f);
    }
  }

  /** Cancelling an open task cancels at least one shard, and cancelled shards stay cancelled. */
  lemma CancelledKeepsShards(db: Tables, e: Event, db': Tables, t: TaskId)
    requires Enabled(db, e) && RowsAfter(db, e, db')
    requires t in db.tasks && TaskFits(db, t) && db'.tasks[t].status.Cancelled?
    requires e.Finish? ==> db.shards[e.shard].task != t
    ensures HasCancelled(db', t)
  {
    if db.tasks[t].status.Cancelled? {
      var c :| IsShardOf(db, c, t) && db.shards[c].status.Cancelled?;
      SameShards(db, e, db', t, c);
    } else {
      var a :| IsShardOf(db, a, t) && !db.shards[a].status.Terminal();
      SameShards(db, e, db', t, a);
    }
  }

  lemma KeepsTaskFits(db: Tables, e: Event, db': Tables, t: TaskId)
    requires Enabled(db, e) && RowsAfter(db, e, db') && JointInv(db) && t in db'.tasks
    ensures TaskFits(db', t)
  {
    if t !in db.tasks {
      var x :| x in e.scripts;
      assert x in db'.shards && x !in db.shards;
      assert IsShardOf(db', x, t);
    } else if e.Finish? && db.shards[e.shard].task == t {
      assert PairInv(db, e.shard);
      FinishKeepsTaskFits(db, e, db');
    } else {
      OpenKeepsActive(db, e, db', t);
      if db'.tasks[t].status.Failed? { FailedKeepsShards(db, e, db', t); }
      if db'.tasks[t].status.Cancelled? { CancelledKeepsShards(db, e, db', t); }
    }
  }

  lemma KeepsFinishFits(db: Tables, e: Event, t: TaskId)
    requires Enabled(db, e) && t in db.tasks && FinishFits(db.tasks[t]) && (e.Start? ==> PairInv(db, e.shard))
    ensures FinishFits(TaskAfter(db, e, t))
  {
  }

  lemma KeepsJointInv(db: Tables, e: Event)
    requires JointInv(db) && Enabled(db, e)
    ensures JointInv(Apply(db, e))
  {
    var db' := Apply(db, e);
    ApplyRows(db, e);
    JointInvAfter(db, e, db');
  }

  lemma JointInvAfter(db: Tables, e: Event, db': Tables)
    requires JointInv(db) && Enabled(db, e) && RowsAfter(db, e, db')
    ensures JointInv(db')
  {
    KeepsWellFormed(db, e, db');
    KeepsRowsFit(db, e, db');
    forall t | t in db'.tasks ensures TaskFits(db', t) { KeepsTaskFits(db, e, db', t); }
    assert e.Start? ==> PairInv(db, e.shard);
    forall t | t in db'.tasks ensures FinishFits(db'.tasks[t]) {
      if t in db.tasks { KeepsFinishFits(db, e, t); }
    }
  }

  /** Every committed state of every log satisfies the joint invariant. */
  lemma {:induction false} JointInvariant(log: seq<Event>)
    requires Legal(log)
    ensures JointInv(Exec(log))
  {
    if |log| > 0 {
      JointInvariant(Front(log));
      KeepsJointInv(Exec(Front(log)), Last(log));
    }
  }
}
