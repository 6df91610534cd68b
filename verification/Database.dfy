/**
 The store and the task service, one call at a time.

 `Db` keeps the three tables and changes them row by row, as the Go code does.
 Every service call that succeeds is exactly one event of `Ledger` (the bulk
 calls: one event a row), every call that fails changes nothing, so the ghost
 `log` of the calls stays legal and all laws of `LedgerLaws` hold of the tables.
 Instants the code reads from the clock are parameters, in reading order.
 */
module Database {
  import opened Rows
  import opened Ledger
  import opened Queue
  import opened Interleaving
  import opened Statements
  import opened Serializable
  import opened Concurrency
  import Columns

  datatype Error =
    | ShardMissing | TaskMissing | TenantMissing | NoScripts
    | WrongShardStatus(got: ShardStatus) | WrongTaskStatus(was: TaskStatus) | TaskIsCancelled
    | NothingQueued | Exhausted | NotYours

  /** Extra columns a guarded status update writes beside the status. */
  datatype Updates = Updates(agent: Option<Option<AgentId>>, startedAt: Option<Time>, finishedAt: Option<Time>, lastError: Option<string>)

  function Updated(row: Shard, to: ShardStatus, c: Updates): Shard {
    row.(status := to,
         agent := if c.agent.Some? then c.agent.value else row.agent,
         startedAt := if c.startedAt.Some? then c.startedAt else row.startedAt,
         finishedAt := if c.finishedAt.Some? then c.finishedAt else row.finishedAt,
         lastError := if c.lastError.Some? then c.lastError.value else row.lastError)
  }

  const KEEP := Updates(None, None, None, None)

  /******* Specifications *******/

  /** When a report is accepted: a repeated success, or a shard in the expected status under a task not cancelled. */
  predicate Accepts(db: Tables, r: Report) {
    && r.shard in db.shards && db.shards[r.shard].task in db.tasks
    && (|| IsDuplicate(r, db.shards[r.shard])
        || (&& !db.tasks[db.shards[r.shard].task].status.Cancelled?
            && (r.ask.AskNothing? || db.shards[r.shard].status == Expected(r.ask))))
  }

  /** The same, column by column. */
  predicate MayReport(db: Tables, r: Report) {
    && r.shard in db.shards && db.shards[r.shard].task in db.tasks
    && var row, task := db.shards[r.shard], db.tasks[db.shards[r.shard].task];
    if r.ask.AskEnd? && r.ask.outcome.Success? && row.status == ShardStatus.Succeeded && row.outputKey != "" then true
    else
      && task.status != TaskStatus.Cancelled
      && (r.ask.AskRunning? ==> row.status == ShardStatus.Leased)
      && (r.ask.AskEnd? ==> row.status == ShardStatus.Running)
  }

  /** What an accepted report leaves in its shard's row, and in the task's row on a start. */
  ghost predicate Shows(a: Tables, b: Tables, r: Report, at: Time) {
    && r.shard in a.shards && r.shard in b.shards && b.shards == a.shards[r.shard := b.shards[r.shard]]
    && var was, row := a.shards[r.shard], b.shards[r.shard];
    match r.ask
    case AskRunning =>
      && row == was.(status := ShardStatus.Running, startedAt := Some(at))
      && row.task in b.tasks && b.tasks[row.task].status == TaskStatus.Running
    case AskEnd(Success(key, sha)) =>
      row == was.(status := ShardStatus.Succeeded, finishedAt := Some(at), outputKey := key, outputSha := sha)
    case AskEnd(Failure(message)) =>
      row == was.(status := ShardStatus.Failed, finishedAt := Some(at), lastError := message)
    case AskNothing => false
  }

  lemma ShowsReport(a: Tables, e: Event, b: Tables, r: Report, at: Time, closedAt: Time)
    requires Columns.Does(a, e, b) && Reports(e, r, at, closedAt)
    ensures Shows(a, b, r, at) && b.shards != a.shards
  {
    Columns.StatusChanges(a, e, b);
  }

  /** An accepted report that moves its shard. */
  predicate Moves(db: Tables, r: Report) {
    Accepts(db, r) && !r.ask.AskNothing? && !IsDuplicate(r, db.shards[r.shard])
  }

  /** The event a report stands for. */
  predicate Reports(e: Event, r: Report, at: Time, closedAt: Time) {
    match r.ask
    case AskRunning => e == Start(r.shard, r.now, at)
    case AskEnd(o) => e.Finish? && e == Finish(r.shard, o, at, closedAt, e.note)
    case AskNothing => false
  }

  /** The payload, with or without its finish time. */
  function WithTime(hook: Option<Payload>, timed: bool): Option<Payload> {
    if hook.None? || timed then hook else Some(hook.value.(finishedAt := None))
  }

  /** Those of the shards, requeued. */
  function Requeued(shards: map<ShardId, Shard>, xs: set<ShardId>): map<ShardId, Shard> {
    map x | x in shards :: if x in xs then RequeueRow(shards[x]) else shards[x]
  }

  /** A snapshot that says the task waited takes a QUEUED task back to waiting. */
  function Demoted(tasks: map<TaskId, Task>, t: TaskId, status: TaskStatus): map<TaskId, Task> {
    if status.WaitingForAgents? && t in tasks && tasks[t].status.Queued? then tasks[t := DemoteTask(tasks[t])] else tasks
  }

  function HeldBy(shards: map<ShardId, Shard>, agent: AgentId): set<ShardId> {
    set x | x in shards && shards[x].status.Held() && shards[x].agent == Some(agent)
  }

  function HoldersOf(shards: map<ShardId, Shard>, t: TaskId): map<ShardId, AgentId> {
    map x | x in shards && shards[x].task == t && shards[x].status.Held() && shards[x].agent.Some? :: shards[x].agent.value
  }

  /** Held by an agent nobody registered. */
  function Unregistered(shards: map<ShardId, Shard>, registered: set<AgentId>): set<ShardId> {
    set x | x in shards && shards[x].status.Held() && shards[x].agent.Some? && shards[x].agent.value !in registered
  }

  predicate Late(row: Shard, cutoff: Time) {
    row.startedAt.Some? && row.startedAt.value < cutoff
  }

  /** Held by an agent nobody registered, and started before the cutoff. */
  function Orphans(shards: map<ShardId, Shard>, registered: set<AgentId>, cutoff: Time): set<ShardId> {
    LateOf(shards, Unregistered(shards, registered), cutoff)
  }

  function LateOf(shards: map<ShardId, Shard>, xs: set<ShardId>, cutoff: Time): set<ShardId> {
    set x | x in xs && x in shards && Late(shards[x], cutoff)
  }

  lemma LateMore(shards: map<ShardId, Shard>, xs: set<ShardId>, x: ShardId, cutoff: Time)
    requires x in shards && x !in xs
    ensures x !in LateOf(shards, xs, cutoff)
    ensures LateOf(shards, xs + {x}, cutoff) == LateOf(shards, xs, cutoff) + if Late(shards[x], cutoff) then {x} else {}
  {
  }

  /** `COUNT(*) > 0` over the task's active, respectively failed, shards. */
  function ActiveOf(db: Tables, t: TaskId): (r: set<ShardId>)
    ensures |r| > 0 <==> HasActive(db, t)
  {
    var r := set x | x in db.shards && db.shards[x].task == t && !db.shards[x].status.Terminal();
    assert forall x :: x in r <==> IsShardOf(db, x, t) && !db.shards[x].status.Terminal();
    r
  }

  function FailedOf(db: Tables, t: TaskId): (r: set<ShardId>)
    ensures |r| > 0 <==> HasFailed(db, t)
  {
    var r := set x | x in db.shards && db.shards[x].task == t && db.shards[x].status.Failed?;
    assert forall x :: x in r <==> IsShardOf(db, x, t) && db.shards[x].status.Failed?;
    r
  }

  /** The checks before an agent's message about a shard is acted on. */
  function LoadValidatedShard(db: Tables, s: ShardId, agent: AgentId, tenant: TenantId, backend: string): (r: Option<Error>)
    ensures r.None? <==>
      && s in db.shards && db.shards[s].task in db.tasks && db.tasks[db.shards[s].task].tenant == tenant
      && tenant in db.tenants && db.tenants[tenant].backend == backend
      && (db.shards[s].agent == Some(agent) || !Columns.IsActive(db.shards[s]))
    ensures r == Some(ShardMissing) <==> s !in db.shards
  {
    if s !in db.shards then Some(ShardMissing)
    else if db.shards[s].agent != Some(agent) && !db.shards[s].status.Terminal() then Some(NotYours)
    else if !Owned(db, db.shards[s].task, tenant, backend) then Some(NotYours)
    else None
  }

  /******* Leases among others *******/

  /** How one try of a lease ends. */
  datatype Try = Won | Lost | Nothing

  /** What other transactions commit between the select of a try and its update. */
  datatype Rival = Nobody | Leases(q: LeaseCall) | Cancels(task: TaskId, tenant: TenantId, at: Time, shardsAt: Time)
  {
    ghost predicate InTime(clock: Time) {
      Cancels? ==> clock <= at <= shardsAt
    }

    ghost function Ends(clock: Time): Time {
      if Cancels? then shardsAt else clock
    }
  }

  /** Their clock readings come in order. */
  ghost predicate InTurn(clock: Time, rivals: seq<Rival>)
    decreases |rivals|
  {
    |rivals| == 0 || (rivals[0].InTime(clock) && InTurn(rivals[0].Ends(clock), rivals[1..]))
  }

  function Rest(rivals: seq<Rival>, n: nat): seq<Rival> {
    if n <= |rivals| then rivals[n..] else []
  }

  lemma RestInTurn(clock: Time, rivals: seq<Rival>, n: nat)
    requires InTurn(clock, Rest(rivals, n))
    ensures n < |rivals| ==> rivals[n].InTime(clock) && InTurn(rivals[n].Ends(clock), Rest(rivals, n + 1))
  {
    if n < |rivals| { assert rivals[n..][1..] == rivals[n + 1..]; }
  }

  /** The same rows, each with its owner: what leases and cancels keep. */
  ghost predicate SameTables(a: Tables, b: Tables) {
    && b.tenants == a.tenants
    && (forall t :: t in a.tasks ==> t in b.tasks && b.tasks[t].tenant == a.tasks[t].tenant)
    && (forall x :: x in a.shards ==> x in b.shards && b.shards[x].task == a.shards[x].task)
  }

  /******* The class *******/

  class Db {
    var tenants: map<TenantId, Tenant>
    var tasks: map<TaskId, Task>
    var shards: map<ShardId, Shard>
    ghost var log: seq<Event>
    ghost var clock: Time

    function Tables(): Tables
      reads this
    {
      Rows.Tables(tenants, tasks, shards)
    }

    /** The tables are the replay of a legal log, and no recorded time is later than the clock. */
    ghost predicate Valid()
      reads this
    {
      Legal(log) && Tables() == Exec(log) && TimesBounded(Tables(), clock)
    }

    constructor ()
      ensures Valid() && Tables() == EMPTY && log == [] && clock == 0
    {
      tenants, tasks, shards, log, clock := map[], map[], map[], [], 0;
    }

    /** The tables have just been moved by one event: note it in the log. */
    ghost method Record(e: Event, before: Tables, now: Time)
      requires Legal(log) && before == Exec(log) && TimesBounded(before, clock) && clock <= now
      requires Enabled(before, e) && TimesOf(e, now) && Tables() == Apply(before, e)
      modifies this`log, this`clock
      ensures Valid() && log == old(log) + [e] && clock == now
    {
      Recorded(log, e, clock, now);
      log, clock := log + [e], now;
    }

    /******* Guarded row updates *******/

    method TransitionStatus(s: ShardId, to: ShardStatus, from: set<ShardStatus>, columns: Updates) returns (err: Option<Error>)
      modifies this`shards
      ensures err.None? <==> s in old(shards) && old(shards)[s].status in from
      ensures shards == if err.None? then old(shards)[s := Updated(old(shards)[s], to, columns)] else old(shards)
      ensures err.Some? ==> err.value == if s in shards then WrongShardStatus(shards[s].status) else ShardMissing
    {
      if s in shards && shards[s].status in from {
        shards := shards[s := Updated(shards[s], to, columns)];
        return None;
      }
      return if s in shards then Some(WrongShardStatus(shards[s].status)) else Some(ShardMissing);
    }

    method MarkRunning(s: ShardId, at: Time) returns (err: Option<Error>)
      modifies this`shards
      ensures err.None? <==> s in old(shards) && old(shards)[s].status.Leased?
      ensures shards == if err.None? then old(shards)[s := StartRow(old(shards)[s], at)] else old(shards)
    {
      err := TransitionStatus(s, ShardStatus.Running, {ShardStatus.Leased}, KEEP.(startedAt := Some(at)));
    }

    method MarkEnded(s: ShardId, o: Outcome, at: Time) returns (err: Option<Error>)
      modifies this`shards
      ensures err.None? <==> s in old(shards) && old(shards)[s].status.Running?
      ensures shards == if err.None? then old(shards)[s := FinishRow(old(shards)[s], o, at)] else old(shards)
    {
      match o
      case Success(key, sha) =>
        err := TransitionStatus(s, ShardStatus.Succeeded, {ShardStatus.Running}, KEEP.(finishedAt := Some(at)));
        if err.None? { shards := shards[s := OutputRow(shards[s], key, sha)]; }
      case Failure(message) =>
        err := TransitionStatus(s, ShardStatus.Failed, {ShardStatus.Running}, KEEP.(finishedAt := Some(at), lastError := Some(message)));
    }

    method RollbackToQueued(s: ShardId, from: set<ShardStatus>) returns (err: Option<Error>)
      modifies this`shards
      ensures err.None? <==> s in old(shards) && old(shards)[s].status in from
      ensures shards == if err.None? then old(shards)[s := RequeueRow(old(shards)[s])] else old(shards)
    {
      err := TransitionStatus(s, ShardStatus.Queued, from, KEEP.(agent := Some(None)));
    }

    method RollbackTaskToWaiting(t: TaskId) returns (err: Option<Error>)
      modifies this`tasks
      ensures err.None? <==> t in old(tasks) && old(tasks)[t].status.Queued?
      ensures tasks == if err.None? then old(tasks)[t := DemoteTask(old(tasks)[t])] else old(tasks)
    {
      if t in tasks && tasks[t].status.Queued? {
        tasks := tasks[t := DemoteTask(tasks[t])];
        return None;
      }
      return Some(TaskMissing);
    }

    /** The task goes back to WAITING_FOR_AGENTS only if the caller's snapshot says it waited and it is QUEUED now. */
    method RollbackShardWithTask(s: ShardId, from: set<ShardStatus>, t: TaskId, status: TaskStatus) returns (err: Option<Error>)
      modifies this`shards, this`tasks
      ensures err.None? <==> s in old(shards) && old(shards)[s].status in from
      ensures shards == if err.None? then old(shards)[s := old(shards)[s].(status := ShardStatus.Queued, agent := None)] else old(shards)
      ensures tasks == if err.None? then Demoted(old(tasks), t, status) else old(tasks)
      ensures tasks == if err.None? && status == TaskStatus.WaitingForAgents && t in old(tasks) && old(tasks)[t].status == TaskStatus.Queued
                       then old(tasks)[t := old(tasks)[t].(status := TaskStatus.WaitingForAgents)] else old(tasks)
    {
      err := RollbackToQueued(s, from);
      if err.None? && status.WaitingForAgents? {
        var _ := RollbackTaskToWaiting(t);
      }
    }

    /******* Recompute *******/

    method ResolveTaskFailureLastError(t: TaskId, fallback: string) returns (note: string)
      ensures Resolved(Tables(), t, fallback, note)
    {
      var db := Tables();
      if exists y :: y in shards && Blames(db, y, t) {
        LatestExists(db, t, shards.Keys);
        var x :| x in shards.Keys && LatestBlame(db, t, shards.Keys, x);
        note := shards[x].lastError;
      } else {
        note := if fallback != "" then fallback else DEFAULT_FAILURE;
      }
    }

    method UpdateTaskTerminalStatus(t: TaskId, status: TaskStatus, note: string, at: Time) returns (err: Option<Error>, updated: bool)
      modifies this`tasks
      ensures updated <==> t in old(tasks) && !old(tasks)[t].status.Terminal()
      ensures tasks == if updated then old(tasks)[t := CloseTask(old(tasks)[t], status, note, at)] else old(tasks)
      ensures err == if t !in old(tasks) then Some(TaskMissing) else if old(tasks)[t].status.Cancelled? then Some(TaskIsCancelled) else None
    {
      updated := t in tasks && !tasks[t].status.Terminal();
      if updated {
        tasks := tasks[t := CloseTask(tasks[t], status, note, at)];
        return None, true;
      }
      return if t !in tasks then Some(TaskMissing) else if tasks[t].status.Cancelled? then Some(TaskIsCancelled) else None, false;
    }

    method RecomputeTaskStatus(t: TaskId, lastError: string, at: Time) returns (err: Option<Error>, hook: Option<Payload>)
      modifies this`tasks
      ensures err.None? <==> t in old(tasks) && !old(tasks)[t].status.Cancelled?
      ensures err.None? && !old(tasks)[t].status.Terminal() && !HasActive(old(Tables()), t) ==>
        && t in tasks && tasks == old(tasks)[t := tasks[t]]
        && (if HasFailed(old(Tables()), t)
            then Resolved(old(Tables()), t, lastError, tasks[t].lastError) &&
                 tasks[t] == CloseTask(old(tasks)[t], TaskStatus.Failed, tasks[t].lastError, at)
            else tasks[t] == CloseTask(old(tasks)[t], TaskStatus.Succeeded, "", at))
        && hook == NewPayload(t, tasks[t], tasks[t].status.Succeeded?)
        && tasks[t].finishedAt == Some(at) && (hook.Some? <==> old(tasks)[t].hookUrl != "")
      ensures err.Some? || old(tasks)[t].status.Terminal() || HasActive(old(Tables()), t) ==> tasks == old(tasks) && hook.None?
    {
      hook := None;
      if t !in tasks { return Some(TaskMissing), None; }
      if tasks[t].status.Cancelled? { return Some(TaskIsCancelled), None; }
      if tasks[t].status.Terminal() { return None, None; }
      if |ActiveOf(Tables(), t)| > 0 { return None, None; }
      var status, note := TaskStatus.Succeeded, "";
      if |FailedOf(Tables(), t)| > 0 {
        status := TaskStatus.Failed;
        note := ResolveTaskFailureLastError(t, lastError);
      }
      var updated;
      err, updated := UpdateTaskTerminalStatus(t, status, note, at);
      if updated { hook := NewPayload(t, tasks[t], status.Succeeded?); }
    }

    /******* Service calls *******/

    /** A start report inside its transaction, once the shard and the task are loaded. */
    method MoveToRunning(r: Report, at: Time) returns (err: Option<Error>)
      requires r.shard in shards && shards[r.shard].task in tasks && !tasks[shards[r.shard].task].status.Cancelled?
      requires TimesBounded(Tables(), r.now) && r.now <= at
      modifies this`tasks, this`shards
      ensures err.None? <==> old(shards)[r.shard].status.Leased?
      ensures err.Some? ==> Tables() == old(Tables())
      ensures var e := Start(r.shard, r.now, at);
        err.None? ==> Enabled(old(Tables()), e) && Tables() == Apply(old(Tables()), e)
    {
      ghost var db := Tables();
      var t := shards[r.shard].task;
      err := MarkRunning(r.shard, at);
      if err.Some? { return; }
      tasks := tasks[t := RunTask(tasks[t], r.now)];
      StartTables(db, Start(r.shard, r.now, at), r.now, Tables());
    }

    /** A success or failure report inside its transaction, once the shard and the task are loaded. */
    method MoveToEnd(s: ShardId, o: Outcome, at: Time, closedAt: Time) returns (err: Option<Error>, hook: Option<Payload>, note: string)
      requires s in shards && shards[s].task in tasks && !tasks[shards[s].task].status.Cancelled?
      requires TimesBounded(Tables(), at) && at <= closedAt
      modifies this`tasks, this`shards
      ensures err.None? <==> old(shards)[s].status.Running?
      ensures err.Some? ==> Tables() == old(Tables()) && hook.None?
      ensures var e := Finish(s, o, at, closedAt, note);
        err.None? ==> Enabled(old(Tables()), e) && Tables() == Apply(old(Tables()), e) && hook == HookOf(old(Tables()), e)
    {
      ghost var db := Tables();
      var t := shards[s].task;
      hook, note := None, "";
      err := MarkEnded(s, o, at);
      if err.Some? { return; }
      err, hook := RecomputeTaskStatus(t, Fallback(o), closedAt);
      note := tasks[t].lastError;
      FinishTables(db, Finish(s, o, at, closedAt, note), at, Tables(), hook);
    }

    /** The transaction of a report. */
    method ReportInTransaction(r: Report, at: Time, closedAt: Time)
      returns (err: Option<Error>, hook: Option<Payload>, ghost done: Option<Event>)
      requires TimesBounded(Tables(), r.now) && TimesBounded(Tables(), at) && r.now <= at <= closedAt
      modifies this`tasks, this`shards
      ensures err.None? <==> Accepts(old(Tables()), r)
      ensures done.Some? <==> Moves(old(Tables()), r)
      ensures done.None? ==> Tables() == old(Tables()) && hook.None?
      ensures done.Some? ==>
        && Reports(done.value, r, at, closedAt) && Enabled(old(Tables()), done.value)
        && Tables() == Apply(old(Tables()), done.value) && hook == HookOf(old(Tables()), done.value)
    {
      hook, done := None, None;
      if r.shard !in shards { return Some(ShardMissing), None, None; }
      var t := shards[r.shard].task;
      if t !in tasks { return Some(TaskMissing), None, None; }
      if IsDuplicate(r, shards[r.shard]) { return None, None, None; }
      if tasks[t].status.Cancelled? { return Some(TaskIsCancelled), None, None; }
      match r.ask
      case AskNothing => err := None;
      case AskRunning =>
        err := MoveToRunning(r, at);
        if err.None? { done := Some(Start(r.shard, r.now, at)); }
      case AskEnd(o) =>
        var note;
        err, hook, note := MoveToEnd(r.shard, o, at, closedAt);
        if err.None? { done := Some(Finish(r.shard, o, at, closedAt, note)); }
    }

    method ReportShardStatus(r: Report, at: Time, closedAt: Time)
      returns (err: Option<Error>, hook: Option<Payload>, ghost done: Option<Event>)
      requires Valid() && clock <= r.now <= at <= closedAt
      modifies this
      ensures Valid() && clock == closedAt && tenants == old(tenants)
      ensures err.None? <==> Accepts(old(Tables()), r)
      ensures err.None? <==> MayReport(old(Tables()), r)
      ensures done.Some? <==> Moves(old(Tables()), r)
      ensures done.Some? <==> err.None? && shards != old(shards)
      ensures done.Some? ==> Columns.Does(old(Tables()), done.value, Tables())
      ensures done.Some? ==> Shows(old(Tables()), Tables(), r, at)
      ensures done.None? ==> Tables() == old(Tables()) && log == old(log) && hook.None?
      ensures done.Some? ==>
        && Reports(done.value, r, at, closedAt) && Enabled(old(Tables()), done.value) && log == old(log) + [done.value]
        && Tables() == Apply(old(Tables()), done.value) && hook == HookOf(old(Tables()), done.value)
    {
      LaterClock(Tables(), clock, r.now);
      LaterClock(Tables(), clock, at);
      ghost var db := Tables();
      err, hook, done := ReportInTransaction(r, at, closedAt);
      if done.Some? {
        ReportTimes(done.value, r, at, closedAt);
        Columns.DoesExactly(db, done.value, Tables());
        ShowsReport(db, done.value, Tables(), r, at, closedAt);
        Record(done.value, db, closedAt);
      } else {
        LaterClock(Tables(), clock, closedAt);
        clock := closedAt;
      }
    }

    /** The select of a lease. */
    method SelectNext(q: LeaseCall) returns (found: bool, s: ShardId)
      ensures found <==> exists x :: Eligible(Tables(), q, x)
      ensures found <==> exists x :: Open(Tables(), q.tenant, q.backend, x)
      ensures found ==> IsNext(Tables(), q, s) && FirstOpen(Tables(), q.tenant, q.backend, s)
    {
      s := 0;
      forall x ensures Eligible(Tables(), q, x) <==> Open(Tables(), q.tenant, q.backend, x) { EligibleMeans(Tables(), q, x); }
      found := exists x :: x in shards && Eligible(Tables(), q, x);
      if !found { return; }
      FirstExists(Tables(), q, shards.Keys);
      s :| s in shards.Keys && FirstOf(Tables(), q, shards.Keys, s);
      IsNextMeans(Tables(), q, s);
    }

    /** Another transaction commits between the select of a try and the rest of it. */
    method Intrude(rival: Rival)
      requires Valid() && rival.InTime(clock)
      modifies this
      ensures Valid() && clock == rival.Ends(old(clock)) && tenants == old(tenants)
      ensures old(log) <= log
      ensures SameTables(old(Tables()), Tables()) && (rival.Nobody? ==> Tables() == old(Tables()) && log == old(log))
    {
      match rival
      case Nobody =>
      case Leases(q) =>
        var found, s := SelectNext(q);
        if found { var _, _, _ := TakeSelected(q, s); }
      case Cancels(t, tenant, at, shardsAt) => CancelAmid(t, tenant, at, shardsAt);
    }

    method CancelAmid(t: TaskId, tenant: TenantId, at: Time, shardsAt: Time)
      requires Valid() && clock <= at <= shardsAt
      modifies this
      ensures Valid() && clock == shardsAt && tenants == old(tenants)
      ensures old(log) <= log
      ensures SameTables(old(Tables()), Tables())
    {
      ghost var db := Tables();
      ghost var e := Cancel(t, tenant, at, shardsAt);
      if t in tasks { CancelSame(db, e); }
      var _, _, _ := CancelTask(t, tenant, at, shardsAt, true);
    }

    /** Load and promote the task, then the guarded lease of the selected shard. */
    method LeaseRows(q: LeaseCall, s: ShardId) returns (won: bool, t: TaskId, status: TaskStatus)
      requires s in shards && shards[s].task in tasks && Owned(Tables(), shards[s].task, q.tenant, q.backend)
      requires tasks[shards[s].task].status.WaitingForAgents? ==> shards[s].status.Queued?
      modifies this`tasks, this`shards
      ensures won <==> old(shards)[s].status == ShardStatus.Queued && old(tasks)[old(shards)[s].task].status.Leasable()
      ensures !won ==> Tables() == old(Tables())
      ensures won ==> t == old(shards)[s].task && t in tasks && status == tasks[t].status && !status.WaitingForAgents?
      ensures won ==>
        && Columns.Leases(old(Tables()), Tables(), s, q.agent, q.tenant, q.backend)
        && var e := Lease(s, q.agent, q.tenant, q.backend); Enabled(old(Tables()), e) && Tables() == Apply(old(Tables()), e)
      ensures SameTables(old(Tables()), Tables())
    {
      ghost var db := Tables();
      t := shards[s].task;
      if tasks[t].status.WaitingForAgents? { tasks := tasks[t := PromoteTask(tasks[t])]; }
      status := tasks[t].status;
      won := status.Leasable() && shards[s].status.Queued?;
      if !won { return; }
      shards := shards[s := LeaseRow(shards[s], q.agent)];
      ghost var e := Lease(s, q.agent, q.tenant, q.backend);
      LeaseTables(db, e, Tables());
      LeaseSame(db, e);
      Columns.LeaseAgrees(db, e, Tables());
    }

    /** The rest of a try, once its shard is selected. */
    method TakeSelected(q: LeaseCall, s: ShardId) returns (won: bool, t: TaskId, status: TaskStatus)
      requires Valid() && s in shards && shards[s].task in tasks && Owned(Tables(), shards[s].task, q.tenant, q.backend)
      modifies this
      ensures Valid() && clock == old(clock) && tenants == old(tenants) && SameTables(old(Tables()), Tables())
      ensures won <==> old(shards)[s].status == ShardStatus.Queued && old(tasks)[old(shards)[s].task].status.Leasable()
      ensures !won ==> Tables() == old(Tables()) && log == old(log)
      ensures won ==> t == old(shards)[s].task && t in tasks && status == tasks[t].status && !status.WaitingForAgents?
      ensures won ==>
        && Columns.Leases(old(Tables()), Tables(), s, q.agent, q.tenant, q.backend)
        && log == old(log) + [Lease(s, q.agent, q.tenant, q.backend)]
    {
      ghost var db := Tables();
      WaitingQueued(log, s);
      won, t, status := LeaseRows(q, s);
      if won { Record(Lease(s, q.agent, q.tenant, q.backend), db, clock); }
    }

    /** The rest of a try, after what another transaction did in its midst. */
    method TakeAmid(q: LeaseCall, s: ShardId, rival: Rival) returns (won: bool, t: TaskId, status: TaskStatus)
      requires Valid() && rival.InTime(clock) && Eligible(Tables(), q, s)
      modifies this
      ensures Valid() && clock == rival.Ends(old(clock)) && tenants == old(tenants)
      ensures old(log) <= log
      ensures !won ==> !rival.Nobody? && ChangedSince(old(Tables()), Tables(), s)
      ensures won ==>
        && t == old(shards)[s].task && t in tasks && status == tasks[t].status && !status.WaitingForAgents?
        && |log| > |old(log)| && Last(log) == Lease(s, q.agent, q.tenant, q.backend)
        && shards[s].status == ShardStatus.Leased && shards[s].agent == Some(q.agent)
    {
      ghost var db, before := Tables(), log;
      Intrude(rival);
      SameEligible(db, Tables(), q, s);
      ghost var mid := log;
      assert rival.Nobody? ==> Tables() == db && mid == before;
      won, t, status := TakeSelected(q, s);
      if won { assert log[..|before|] == mid[..|before|]; }
    }

    /** One try, with what another transaction did in its midst. */
    method LeaseTry(q: LeaseCall, rival: Rival) returns (end: Try, s: ShardId, t: TaskId, status: TaskStatus)
      requires Valid() && rival.InTime(clock)
      modifies this
      ensures Valid() && clock <= rival.Ends(old(clock)) && tenants == old(tenants)
      ensures clock == if end.Nothing? then old(clock) else rival.Ends(old(clock))
      ensures old(log) <= log
      ensures end.Nothing? <==> forall x :: !Open(old(Tables()), q.tenant, q.backend, x)
      ensures end.Won? ==> FirstOpen(old(Tables()), q.tenant, q.backend, s)
      ensures end.Nothing? ==> Tables() == old(Tables())
      ensures end.Lost? ==> !rival.Nobody? && ChangedSince(old(Tables()), Tables(), s)
      ensures end.Won? ==>
        && IsNext(old(Tables()), q, s) && t == old(shards)[s].task && t in tasks && status == tasks[t].status && !status.WaitingForAgents?
        && |log| > |old(log)| && Last(log) == Lease(s, q.agent, q.tenant, q.backend)
        && shards[s].status == ShardStatus.Leased && shards[s].agent == Some(q.agent)
    {
      t, status := 0, TaskStatus.Pending;
      var found;
      found, s := SelectNext(q);
      if !found { return Nothing, s, t, status; }
      var won;
      won, t, status := TakeAmid(q, s, rival);
      end := if won then Won else Lost;
    }

    /**
     The lease with its retry loop. `rivals[i]` is what others commit in the midst
     of the i-th try. The shard leased was first in the queue at the select of the
     winning try, when the log was `selected`; not-found means that the queue is empty; and all tries are used
     up only if others interfered in every one of them.
     */
    method LeaseAmongRivals(q: LeaseCall, rivals: seq<Rival>)
      returns (err: Option<Error>, s: ShardId, t: TaskId, status: TaskStatus, ghost selected: seq<Event>)
      requires Valid() && InTurn(clock, rivals)
      modifies this
      ensures Valid() && tenants == old(tenants)
      ensures old(log) <= log
      ensures err.None? ==>
        && t in tasks && status == tasks[t].status && !status.WaitingForAgents?
        && old(log) <= selected < log && Last(log) == Lease(s, q.agent, q.tenant, q.backend)
        && Legal(selected) && FirstOpen(Exec(selected), q.tenant, q.backend, s)
        && shards[s].status == ShardStatus.Leased && shards[s].agent == Some(q.agent)
      ensures err == Some(NothingQueued) ==> forall x :: !Open(Tables(), q.tenant, q.backend, x)
      ensures err == Some(Exhausted) ==> |rivals| >= MAX_TRIES && forall i :: 0 <= i < MAX_TRIES ==> !rivals[i].Nobody?
      ensures err.None? || err == Some(NothingQueued) || err == Some(Exhausted)
    {
      s, t, status, selected := 0, 0, TaskStatus.Pending, log;
      for tries := 0 to MAX_TRIES
        invariant Valid() && tenants == old(tenants) && InTurn(clock, Rest(rivals, tries))
        invariant old(log) <= log
        invariant tries <= |rivals| && forall i :: 0 <= i < tries ==> !rivals[i].Nobody?
      {
        var rival := if tries < |rivals| then rivals[tries] else Nobody;
        RestInTurn(clock, rivals, tries);
        selected := log;
        var end;
        end, s, t, status := LeaseTry(q, rival);
        if end.Nothing? { return Some(NothingQueued), s, t, status, selected; }
        if end.Won? { return None, s, t, status, selected; }
      }
      return Some(Exhausted), s, t, status, selected;
    }

    /** The lease with nobody else at work: its first try decides. */
    method LeaseNextShard(q: LeaseCall) returns (err: Option<Error>, s: ShardId, t: TaskId, status: TaskStatus)
      requires Valid()
      modifies this
      ensures Valid() && clock == old(clock) && tenants == old(tenants)
      ensures err == None || err == Some(NothingQueued)
      ensures err == Some(NothingQueued) <==> AllClosed(old(Tables()), q.tenant, q.backend)
      ensures err.Some? ==> Tables() == old(Tables())
      ensures err.None? ==>
        FirstOpen(old(Tables()), q.tenant, q.backend, s) && Columns.Leases(old(Tables()), Tables(), s, q.agent, q.tenant, q.backend)
      ensures err.None? ==>
        && IsNext(old(Tables()), q, s) && t == old(shards)[s].task && t in tasks && status == tasks[t].status && !status.WaitingForAgents?
        && var e := Lease(s, q.agent, q.tenant, q.backend);
        Tables() == Apply(old(Tables()), e) && log == old(log) + [e]
    {
      NoneOpen(Tables(), q.tenant, q.backend);
      t, status := 0, TaskStatus.Pending;
      var found;
      found, s := SelectNext(q);
      if !found { return Some(NothingQueued), s, t, status; }
      var won;
      ghost var db := Tables();
      won, t, status := TakeSelected(q, s);
      Columns.LeaseAgrees(db, Lease(s, q.agent, q.tenant, q.backend), Tables());
      err := if won then None else Some(NothingQueued);
    }

    method CancelTaskById(tenant: TenantId, t: TaskId, at: Time) returns (err: Option<Error>)
      modifies this`tasks
      ensures err.None? <==> t in old(tasks) && old(tasks)[t].tenant == tenant && !old(tasks)[t].status.Terminal()
      ensures tasks == if err.None? then old(tasks)[t := CloseTask(old(tasks)[t], TaskStatus.Cancelled, "", at)] else old(tasks)
    {
      if t !in tasks || tasks[t].tenant != tenant { return Some(TaskMissing); }
      if tasks[t].status.Terminal() { return Some(WrongTaskStatus(tasks[t].status)); }
      tasks := tasks[t := CloseTask(tasks[t], TaskStatus.Cancelled, "", at)];
      return None;
    }

    method CancelTaskShardsByTaskId(t: TaskId, at: Time)
      modifies this`shards
      ensures shards.Keys == old(shards).Keys
      ensures forall x :: x in shards ==>
        shards[x] == if old(shards)[x].task == t && !old(shards)[x].status.Terminal() then CancelRow(old(shards)[x], at) else old(shards)[x]
    {
      shards := map x | x in shards ::
        if shards[x].task == t && !shards[x].status.Terminal() then CancelRow(shards[x], at) else shards[x];
    }

    method CancelInTransaction(t: TaskId, tenant: TenantId, at: Time, shardsAt: Time) returns (err: Option<Error>)
      requires TimesBounded(Tables(), at) && at <= shardsAt
      modifies this`tasks, this`shards
      ensures err.None? <==> t in old(tasks) && old(tasks)[t].tenant == tenant && !old(tasks)[t].status.Terminal()
      ensures err.Some? ==> Tables() == old(Tables())
      ensures var e := Cancel(t, tenant, at, shardsAt);
        err.None? ==> Enabled(old(Tables()), e) && Tables() == Apply(old(Tables()), e)
    {
      ghost var db := Tables();
      err := CancelTaskById(tenant, t, at);
      if err.Some? { return; }
      CancelTaskShardsByTaskId(t, shardsAt);
      CancelTables(db, Cancel(t, tenant, at, shardsAt), Tables());
    }

    /**
     `notify` lists the agents to tell: the holders of the task's shards before the
     cancel. The payload has its finish time if the row can be read again (`reread`).
     */
    method CancelTask(t: TaskId, tenant: TenantId, at: Time, shardsAt: Time, reread: bool)
      returns (err: Option<Error>, hook: Option<Payload>, notify: map<ShardId, AgentId>)
      requires Valid() && clock <= at <= shardsAt
      modifies this
      ensures Valid() && clock == shardsAt && tenants == old(tenants)
      ensures err.None? <==>
        tenant in old(tenants) && t in old(tasks) && old(tasks)[t].tenant == tenant && !old(tasks)[t].status.Terminal()
      ensures err.Some? ==> Tables() == old(Tables()) && log == old(log) && hook.None?
      ensures var e := Cancel(t, tenant, at, shardsAt);
        err.None? ==> Tables() == Apply(old(Tables()), e) && log == old(log) + [e] && hook == WithTime(HookOf(old(Tables()), e), reread)
      ensures err.None? ==> Columns.Cancels(old(Tables()), Tables(), t, tenant, at, shardsAt)
      ensures err.None? ==>
        && (hook.Some? <==> old(tasks)[t].hookUrl != "")
        && (hook.Some? ==> hook.value == Payload(t, tenant, TaskStatus.Cancelled, "", if reread then Some(at) else None, false, old(tasks)[t].hookUrl))
      ensures err.None? ==>
        && (forall x :: x in notify <==>
            x in old(shards) && old(shards)[x].task == t && (old(shards)[x].status == ShardStatus.Leased || old(shards)[x].status == ShardStatus.Running))
        && (forall x :: x in notify ==> old(shards)[x].agent == Some(notify[x]))
    {
      hook, notify := None, HoldersOf(shards, t);
      ghost var db := Tables();
      var seen := if t in tasks then Some(tasks[t]) else None;
      if tenant !in tenants { err := Some(TenantMissing); }
      else if seen.None? { err := Some(TaskMissing); }
      else {
        LaterClock(Tables(), clock, at);
        OpenUnfinished(log, t);
        HoldersHeld(log, t);
        err := CancelInTransaction(t, tenant, at, shardsAt);
      }
      if err.None? {
        Columns.CancelAgrees(db, Cancel(t, tenant, at, shardsAt), Tables());
        Record(Cancel(t, tenant, at, shardsAt), db, shardsAt);
        CancelledRow(db, Cancel(t, tenant, at, shardsAt));
        hook := NewPayload(t, seen.value.(status := TaskStatus.Cancelled, lastError := ""), false);
        if reread && hook.Some? { hook := Some(hook.value.(finishedAt := tasks[t].finishedAt)); }
      } else {
        LaterClock(Tables(), clock, shardsAt);
        clock := shardsAt;
      }
    }

    /** One guarded rollback as its own transaction, with or without a snapshot of the task. */
    method Requeue(s: ShardId, from: set<ShardStatus>, snapshot: Option<(TaskId, TaskStatus)>) returns (err: Option<Error>)
      requires Valid() && from <= {ShardStatus.Leased, ShardStatus.Running}
      modifies this
      ensures clock == old(clock) && tenants == old(tenants)
      ensures err.None? <==> s in old(shards) && old(shards)[s].status in from
      ensures shards == if err.None? then old(shards)[s := RequeueRow(old(shards)[s])] else old(shards)
      ensures tasks == if err.None? && snapshot.Some? then Demoted(old(tasks), snapshot.value.0, snapshot.value.1) else old(tasks)
      ensures tasks == old(tasks) ==> Valid() && log == if err.None? then old(log) + [Rollback(s, from)] else old(log)
    {
      ghost var db := Tables();
      if snapshot.Some? {
        err := RollbackShardWithTask(s, from, snapshot.value.0, snapshot.value.1);
      } else {
        err := RollbackToQueued(s, from);
      }
      if err.None? && tasks == db.tasks {
        RollbackTables(db, s, from);
        Record(Rollback(s, from), db, clock);
      }
    }

    /** The compensation of a lease. With the status that `LeaseNextShard` returned, no task changes. */
    method RollbackAssignedShard(s: ShardId, t: TaskId, status: TaskStatus) returns (err: Option<Error>)
      requires Valid()
      modifies this
      ensures clock == old(clock) && tenants == old(tenants) && (tasks == old(tasks) ==> Valid())
      ensures tasks == if err.None? then Demoted(old(tasks), t, status) else old(tasks)
      ensures tasks == if err.None? && status == TaskStatus.WaitingForAgents && t in old(tasks) && old(tasks)[t].status == TaskStatus.Queued
                       then old(tasks)[t := old(tasks)[t].(status := TaskStatus.WaitingForAgents)] else old(tasks)
      ensures err.None? <==> s in old(shards) && old(shards)[s].status == ShardStatus.Leased
      ensures shards == if err.None? then old(shards)[s := old(shards)[s].(status := ShardStatus.Queued, agent := None)] else old(shards)
    {
      err := Requeue(s, {ShardStatus.Leased}, Some((t, status)));
    }

    method RollbackTimedOutShard(s: ShardId, agent: AgentId, tenant: TenantId, backend: string) returns (err: Option<Error>)
      requires Valid()
      modifies this
      ensures Valid() && clock == old(clock) && tenants == old(tenants) && tasks == old(tasks)
      ensures err.None? <==>
        && s in old(shards) && old(shards)[s].agent == Some(agent)
        && (old(shards)[s].status == ShardStatus.Leased || old(shards)[s].status == ShardStatus.Running)
        && Owned(old(Tables()), old(shards)[s].task, tenant, backend)
      ensures shards == if err.None? then old(shards)[s := old(shards)[s].(status := ShardStatus.Queued, agent := None)] else old(shards)
    {
      TimedOutChecks(log, s, agent, tenant, backend);
      err := LoadValidatedShard(Tables(), s, agent, tenant, backend);
      if err.None? {
        var t := shards[s].task;
        err := Requeue(s, {ShardStatus.Leased, ShardStatus.Running}, Some((t, tasks[t].status)));
      }
    }

    /** One more of the loaded shards is requeued. */
    method RequeueNext(loaded: map<ShardId, Shard>, ghost gone: set<ShardId>, x: ShardId, from: set<ShardStatus>, withTask: bool)
      returns (err: Option<Error>)
      requires Valid() && shards == Requeued(loaded, gone)
      requires x in loaded && x !in gone && loaded[x].status in from && from <= {ShardStatus.Leased, ShardStatus.Running}
      modifies this
      ensures Valid() && clock == old(clock) && tenants == old(tenants) && tasks == old(tasks)
      ensures err.None? && shards == Requeued(loaded, gone + {x})
    {
      RequeuedMore(loaded, gone, x);
      HeldTask(log, x);
      var t := loaded[x].task;
      err := Requeue(x, from, if withTask then Some((t, tasks[t].status)) else None);
    }

    /** Everything the agent holds goes back to the queue; the count says how much. */
    method RollbackOrphanShardsForAgent(agent: AgentId) returns (rolledBack: nat)
      requires Valid()
      modifies this
      ensures Valid() && clock == old(clock) && tenants == old(tenants) && tasks == old(tasks)
      ensures shards == Requeued(old(shards), HeldBy(old(shards), agent))
      ensures rolledBack == |HeldBy(old(shards), agent)|
      ensures shards.Keys == old(shards).Keys && forall x :: x in shards ==>
        shards[x] == if old(shards)[x].agent == Some(agent) && (old(shards)[x].status == ShardStatus.Leased || old(shards)[x].status == ShardStatus.Running)
                     then old(shards)[x].(status := ShardStatus.Queued, agent := None) else old(shards)[x]
    {
      var loaded, held, gone := shards, HeldBy(shards, agent), {};
      rolledBack := 0;
      RequeuedNone(shards);
      while gone != held
        invariant Valid() && clock == old(clock) && tenants == old(tenants) && tasks == old(tasks)
        invariant gone <= held && shards == Requeued(loaded, gone)
        invariant rolledBack == |gone|
        decreases held - gone
      {
        SomeLeft(held, gone);
        var x :| x in held - gone;
        var err := RequeueNext(loaded, gone, x, {loaded[x].status}, false);
        gone := gone + {x};
        if err.None? { rolledBack := rolledBack + 1; }
      }
    }

    /** Shards started before the cutoff whose agent nobody registered go back to the queue. */
    method CleanupOrphanShards(registered: set<AgentId>, cutoff: Time) returns (rolledBack: nat)
      requires Valid()
      modifies this
      ensures Valid() && clock == old(clock) && tenants == old(tenants) && tasks == old(tasks)
      ensures shards.Keys == old(shards).Keys && forall x :: x in shards ==>
        var row := old(shards)[x];
        shards[x] == if (row.status == ShardStatus.Leased || row.status == ShardStatus.Running) && row.agent.Some? && row.agent.value !in registered
                        && row.startedAt.Some? && row.startedAt.value < cutoff
                     then row.(status := ShardStatus.Queued, agent := None) else row
      ensures rolledBack == |Orphans(old(shards), registered, cutoff)|
    {
      OrphansMeans(shards, registered, cutoff);
      rolledBack := RequeueOrphans(registered, cutoff);
    }

    /** One found shard is requeued if it started before the cutoff. */
    method RequeueIfLate(loaded: map<ShardId, Shard>, ghost seen: set<ShardId>, x: ShardId, cutoff: Time) returns (n: nat)
      requires Valid() && shards == Requeued(loaded, LateOf(loaded, seen, cutoff))
      requires x in loaded && x !in seen && loaded[x].status.Held()
      modifies this
      ensures Valid() && clock == old(clock) && tenants == old(tenants) && tasks == old(tasks)
      ensures shards == Requeued(loaded, LateOf(loaded, seen + {x}, cutoff))
      ensures |LateOf(loaded, seen + {x}, cutoff)| == |LateOf(loaded, seen, cutoff)| + n
    {
      LateMore(loaded, seen, x, cutoff);
      n := 0;
      if Late(loaded[x], cutoff) {
        var err := RequeueNext(loaded, LateOf(loaded, seen, cutoff), x, {ShardStatus.Leased, ShardStatus.Running}, true);
        if err.None? { n := 1; }
      }
    }

    method RequeueOrphans(registered: set<AgentId>, cutoff: Time) returns (rolledBack: nat)
      requires Valid()
      modifies this
      ensures Valid() && clock == old(clock) && tenants == old(tenants) && tasks == old(tasks)
      ensures shards == Requeued(old(shards), Orphans(old(shards), registered, cutoff))
      ensures rolledBack == |Orphans(old(shards), registered, cutoff)|
    {
      var loaded, found, seen := shards, Unregistered(shards, registered), {};
      rolledBack := 0;
      RequeuedNone(shards);
      assert LateOf(loaded, {}, cutoff) == {};
      while seen != found
        invariant Valid() && clock == old(clock) && tenants == old(tenants) && tasks == old(tasks)
        invariant seen <= found && shards == Requeued(loaded, LateOf(loaded, seen, cutoff))
        invariant rolledBack == |LateOf(loaded, seen, cutoff)|
        decreases found - seen
      {
        SomeLeft(found, seen);
        var x :| x in found - seen;
        var n := RequeueIfLate(loaded, seen, x, cutoff);
        seen, rolledBack := seen + {x}, rolledBack + n;
      }
    }

    method CreateTenant(tenant: TenantId, row: Tenant) returns (ok: bool)
      requires Valid()
      modifies this
      ensures Valid() && clock == old(clock)
      ensures ok <==> tenant !in old(tenants)
      ensures Tables() == if ok then Apply(old(Tables()), AddTenant(tenant, row)) else old(Tables())
      ensures log == if ok then old(log) + [AddTenant(tenant, row)] else old(log)
    {
      ok := tenant !in tenants;
      if ok {
        ghost var db := Tables();
        TenantTables(db, tenant, row);
        tenants := tenants[tenant := row];
        Record(AddTenant(tenant, row), db, clock);
      }
    }

    /** The insert loop of a submission; `ids` are the fresh identifiers of the shards. */
    method CreateShards(task: TaskId, scripts: seq<string>, ids: seq<ShardId>)
      requires |ids| == |scripts|
      modifies this`shards
      ensures shards == Inserted(old(shards), task, scripts, ids, |ids|)
    {
      for i := 0 to |ids|
        invariant shards == Inserted(old(shards), task, scripts, ids, i)
      {
        shards := shards[ids[i] := NewShard(task, scripts[i])];
      }
    }

    method SubmitInTransaction(task: TaskId, tenant: TenantId, hookUrl: string, at: Time, scripts: seq<string>, ids: seq<ShardId>)
      returns (ghost done: Event)
      requires task !in tasks && tenant in tenants && |scripts| > 0 && NewIds(shards, scripts, ids)
      modifies this`tasks, this`shards
      ensures done == Submit(task, tenant, hookUrl, at, Names(scripts, ids, |ids|))
      ensures Enabled(old(Tables()), done) && Tables() == Apply(old(Tables()), done)
      ensures tasks == old(tasks)[task := Task(tenant, TaskStatus.Pending, hookUrl, |scripts|, at, None, None, "")]
      ensures (forall x :: x in shards <==> x in old(shards) || x in ids) && (forall x :: x in old(shards) ==> shards[x] == old(shards)[x])
      ensures forall i :: 0 <= i < |ids| ==> shards[ids[i]] == Shard(task, scripts[i], ShardStatus.Queued, None, "", "", None, None, "")
    {
      InsertedMeans(shards, task, scripts, ids);
      done := Submit(task, tenant, hookUrl, at, Names(scripts, ids, |ids|));
      SubmitTables(Tables(), done, scripts, ids);
      tasks := tasks[task := NewTask(tenant, hookUrl, |scripts|, at)];
      CreateShards(task, scripts, ids);
    }

    /** A submission with at least one script creates a PENDING task with one QUEUED shard a script. */
    method SubmitTask(task: TaskId, tenant: TenantId, hookUrl: string, at: Time, scripts: seq<string>, ids: seq<ShardId>)
      returns (err: Option<Error>, ghost done: Option<Event>)
      requires Valid() && task !in tasks && NewIds(shards, scripts, ids)
      modifies this
      ensures Valid() && clock == old(clock) && tenants == old(tenants)
      ensures err == if tenant !in tenants then Some(TenantMissing) else if scripts == [] then Some(NoScripts) else None
      ensures done == if err.None? then Some(Submit(task, tenant, hookUrl, at, Names(scripts, ids, |ids|))) else None
      ensures Tables() == if done.Some? then Apply(old(Tables()), done.value) else old(Tables())
      ensures log == if done.Some? then old(log) + [done.value] else old(log)
      ensures err.None? ==>
        && tasks == old(tasks)[task := Task(tenant, TaskStatus.Pending, hookUrl, |scripts|, at, None, None, "")]
        && (forall x :: x in shards <==> x in old(shards) || x in ids) && (forall x :: x in old(shards) ==> shards[x] == old(shards)[x])
        && (forall i :: 0 <= i < |ids| ==> shards[ids[i]] == Shard(task, scripts[i], ShardStatus.Queued, None, "", "", None, None, ""))
    {
      if tenant !in tenants { return Some(TenantMissing), None; }
      if |scripts| == 0 { return Some(NoScripts), None; }
      ghost var db := Tables();
      ghost var e := SubmitInTransaction(task, tenant, hookUrl, at, scripts, ids);
      Record(e, db, clock);
      return None, Some(e);
    }

    /** The poller's bulk update touches PENDING tasks only. */
    method MarkTasksStatus(ids: set<TaskId>, to: TaskStatus, note: string)
      requires Valid()
      modifies this
      ensures (PollTarget(to) ==> Valid()) && clock == old(clock) && tenants == old(tenants) && shards == old(shards)
      ensures tasks.Keys == old(tasks).Keys && forall t :: t in tasks ==>
        tasks[t] == if t in ids && old(tasks)[t].status == TaskStatus.Pending then old(tasks)[t].(status := to, lastError := note) else old(tasks)[t]
    {
      if ids == {} { return; }
      ghost var db := Tables();
      tasks := Polled(tasks, ids, to, note);
      RecordPolls(ids, to, note, db);
    }

    /** The bulk update noted in the log, one event a task. */
    ghost method RecordPolls(ids: set<TaskId>, to: TaskStatus, note: string, before: Tables)
      requires Legal(log) && before == Exec(log) && TimesBounded(before, clock)
      requires Tables() == before.(tasks := Polled(before.tasks, ids, to, note))
      modifies this`log
      ensures PollTarget(to) ==> Valid()
    {
      var todo := set t | t in ids && t in before.tasks && before.tasks[t].status.Pending?;
      PolledOnly(before.tasks, ids, todo, to, note);
      if PollTarget(to) { log := PollAll(log, todo, to, note); }
    }
  }

  function Polled(tasks: map<TaskId, Task>, ids: set<TaskId>, to: TaskStatus, note: string): map<TaskId, Task> {
    map t | t in tasks :: if t in ids && tasks[t].status.Pending? then tasks[t].(status := to, lastError := note) else tasks[t]
  }

  lemma PolledNone(tasks: map<TaskId, Task>, to: TaskStatus, note: string)
    ensures Polled(tasks, {}, to, note) == tasks
  {
  }

  lemma PolledOnly(tasks: map<TaskId, Task>, ids: set<TaskId>, todo: set<TaskId>, to: TaskStatus, note: string)
    requires todo == set t | t in ids && t in tasks && tasks[t].status.Pending?
    ensures Polled(tasks, todo, to, note) == Polled(tasks, ids, to, note)
  {
  }

  /** The bulk update is one poll event a task, in any order. */
  lemma {:induction false} PollAll(log: seq<Event>, todo: set<TaskId>, to: TaskStatus, note: string) returns (more: seq<Event>)
    requires Legal(log) && PollTarget(to) && forall t :: t in todo ==> t in Exec(log).tasks && Exec(log).tasks[t].status.Pending?
    ensures Legal(more) && Exec(more) == Exec(log).(tasks := Polled(Exec(log).tasks, todo, to, note))
    decreases |todo|
  {
    if todo == {} {
      more := log;
      PolledNone(Exec(log).tasks, to, note);
    } else {
      var t :| t in todo;
      var db, e := Exec(log), Poll(t, to, note);
      LegalMore(log, e);
      PollTables(db, e);
      more := PollAll(log + [e], todo - {t}, to, note);
      PolledMore(db.tasks, todo, t, to, note);
    }
  }

  lemma PollTables(db: Tables, e: Event)
    requires e.Poll? && Enabled(db, e)
    ensures Apply(db, e) == db.(tasks := db.tasks[e.task := db.tasks[e.task].(status := e.to, lastError := e.note)])
  {
    assert db.shards + map[] == db.shards;
    assert Apply(db, e).tasks == db.tasks[e.task := db.tasks[e.task].(status := e.to, lastError := e.note)];
  }

  lemma PolledMore(tasks: map<TaskId, Task>, todo: set<TaskId>, t: TaskId, to: TaskStatus, note: string)
    requires t in todo && t in tasks && tasks[t].status.Pending?
    ensures Polled(tasks[t := tasks[t].(status := to, lastError := note)], todo - {t}, to, note) == Polled(tasks, todo, to, note)
  {
  }

  lemma SomeLeft(all: set<ShardId>, done: set<ShardId>)
    requires done <= all && done != all
    ensures exists x :: x in all - done
  {
    assert !(all <= done);
    var x :| x in all && x !in done;
    assert x in all - done;
  }

  lemma OrphansMeans(shards: map<ShardId, Shard>, registered: set<AgentId>, cutoff: Time)
    ensures var b := Requeued(shards, Orphans(shards, registered, cutoff));
      b.Keys == shards.Keys && forall x :: x in b ==>
        var row := shards[x];
        b[x] == if (row.status == ShardStatus.Leased || row.status == ShardStatus.Running) && row.agent.Some? && row.agent.value !in registered
                   && row.startedAt.Some? && row.startedAt.value < cutoff
                then row.(status := ShardStatus.Queued, agent := None) else row
  {
  }

  lemma RequeuedNone(shards: map<ShardId, Shard>)
    ensures Requeued(shards, {}) == shards
  {
  }

  lemma RequeuedMore(shards: map<ShardId, Shard>, xs: set<ShardId>, x: ShardId)
    requires x in shards && x !in xs
    ensures Requeued(shards, xs)[x] == shards[x]
    ensures Requeued(shards, xs + {x}) == Requeued(shards, xs)[x := RequeueRow(shards[x])]
  {
  }

  lemma TenantTables(db: Tables, tenant: TenantId, row: Tenant)
    ensures Apply(db, AddTenant(tenant, row)) == db.(tenants := db.tenants[tenant := row])
  {
    assert db.tasks + map[] == db.tasks && db.shards + map[] == db.shards;
  }

  /** One fresh identifier a script, as generated UUIDs are. */
  predicate NewIds(shards: map<ShardId, Shard>, scripts: seq<string>, ids: seq<ShardId>) {
    && |ids| == |scripts|
    && (forall i :: 0 <= i < |ids| ==> ids[i] !in shards)
    && Distinct(ids)
  }

  function Names(scripts: seq<string>, ids: seq<ShardId>, n: nat): map<ShardId, string>
    requires n <= |ids| == |scripts|
  {
    if n == 0 then map[] else Names(scripts, ids, n - 1)[ids[n - 1] := scripts[n - 1]]
  }

  function Inserted(shards: map<ShardId, Shard>, task: TaskId, scripts: seq<string>, ids: seq<ShardId>, n: nat): map<ShardId, Shard>
    requires n <= |ids| == |scripts|
  {
    if n == 0 then shards else Inserted(shards, task, scripts, ids, n - 1)[ids[n - 1] := NewShard(task, scripts[n - 1])]
  }

  function ShardRows(task: TaskId, names: map<ShardId, string>): map<ShardId, Shard> {
    map x | x in names :: NewShard(task, names[x])
  }

  lemma {:induction false} NamesKeys(scripts: seq<string>, ids: seq<ShardId>, n: nat)
    requires n <= |ids| == |scripts|
    ensures Names(scripts, ids, n).Keys == set x | x in ids[..n]
  {
    if n > 0 {
      NamesKeys(scripts, ids, n - 1);
      assert ids[..n] == ids[..n - 1] + [ids[n - 1]];
    }
  }

  predicate Distinct(ids: seq<ShardId>) {
    forall i, j :: 0 <= i < j < |ids| ==> ids[i] != ids[j]
  }

  /** As many shards as scripts. */
  lemma {:induction false} NamesCount(scripts: seq<string>, ids: seq<ShardId>, n: nat)
    requires n <= |ids| == |scripts| && Distinct(ids)
    ensures |Names(scripts, ids, n).Keys| == n
  {
    if n > 0 {
      NamesCount(scripts, ids, n - 1);
      NamesKeys(scripts, ids, n - 1);
      OneMoreKey(Names(scripts, ids, n - 1), ids[n - 1], scripts[n - 1]);
    }
  }

  lemma OneMoreKey(names: map<ShardId, string>, x: ShardId, name: string)
    requires x !in names
    ensures |names[x := name].Keys| == |names.Keys| + 1
  {
    assert names[x := name].Keys == names.Keys + {x};
  }

  /** Every script gets a shard of its own. */
  lemma {:induction false} NamesFaithful(scripts: seq<string>, ids: seq<ShardId>, n: nat, k: nat)
    requires k < n <= |ids| == |scripts| && Distinct(ids)
    ensures ids[k] in Names(scripts, ids, n) && Names(scripts, ids, n)[ids[k]] == scripts[k]
  {
    if k < n - 1 {
      NamesFaithful(scripts, ids, n - 1, k);
      assert ids[k] != ids[n - 1];
    }
  }

  lemma RowsMore(shards: map<ShardId, Shard>, task: TaskId, names: map<ShardId, string>, x: ShardId, name: string)
    ensures shards + ShardRows(task, names[x := name]) == (shards + ShardRows(task, names))[x := NewShard(task, name)]
  {
  }

  lemma {:induction false} InsertedRows(shards: map<ShardId, Shard>, task: TaskId, scripts: seq<string>, ids: seq<ShardId>, n: nat)
    requires n <= |ids| == |scripts|
    ensures Inserted(shards, task, scripts, ids, n) == shards + ShardRows(task, Names(scripts, ids, n))
  {
    if n > 0 {
      InsertedRows(shards, task, scripts, ids, n - 1);
      RowsMore(shards, task, Names(scripts, ids, n - 1), ids[n - 1], scripts[n - 1]);
    } else {
      assert ShardRows(task, map[]) == map[];
    }
  }

  function NewTask(tenant: TenantId, hookUrl: string, shardCount: nat, at: Time): Task {
    Task(tenant, TaskStatus.Pending, hookUrl, shardCount, at, None, None, "")
  }

  /** The inserted rows, read back. */
  lemma InsertedMeans(shards: map<ShardId, Shard>, task: TaskId, scripts: seq<string>, ids: seq<ShardId>)
    requires NewIds(shards, scripts, ids)
    ensures var b := Inserted(shards, task, scripts, ids, |ids|);
      && (forall x :: x in b <==> x in shards || x in ids) && (forall x :: x in shards ==> b[x] == shards[x])
      && (forall i :: 0 <= i < |ids| ==> b[ids[i]] == Shard(task, scripts[i], ShardStatus.Queued, None, "", "", None, None, ""))
  {
    InsertedKeys(shards, task, scripts, ids, |ids|);
    assert ids[..|ids|] == ids;
    forall i | 0 <= i < |ids|
      ensures Inserted(shards, task, scripts, ids, |ids|)[ids[i]] == Shard(task, scripts[i], ShardStatus.Queued, None, "", "", None, None, "")
    {
      InsertedAt(shards, task, scripts, ids, |ids|, i);
    }
  }

  lemma {:induction false} InsertedKeys(shards: map<ShardId, Shard>, task: TaskId, scripts: seq<string>, ids: seq<ShardId>, n: nat)
    requires n <= |ids| == |scripts| && (forall i :: 0 <= i < |ids| ==> ids[i] !in shards)
    ensures var b := Inserted(shards, task, scripts, ids, n);
      (forall x :: x in b <==> x in shards || x in ids[..n]) && (forall x :: x in shards ==> b[x] == shards[x])
  {
    if n > 0 {
      InsertedKeys(shards, task, scripts, ids, n - 1);
      assert ids[..n] == ids[..n - 1] + [ids[n - 1]];
    }
  }

  lemma {:induction false} InsertedAt(shards: map<ShardId, Shard>, task: TaskId, scripts: seq<string>, ids: seq<ShardId>, n: nat, k: nat)
    requires k < n <= |ids| == |scripts| && Distinct(ids)
    ensures var b := Inserted(shards, task, scripts, ids, n);
      ids[k] in b && b[ids[k]] == Shard(task, scripts[k], ShardStatus.Queued, None, "", "", None, None, "")
  {
    if k < n - 1 {
      InsertedAt(shards, task, scripts, ids, n - 1, k);
      assert ids[k] != ids[n - 1];
    }
  }

  lemma SubmitTables(db: Tables, e: Event, scripts: seq<string>, ids: seq<ShardId>)
    requires e.Submit? && e.task !in db.tasks && e.tenant in db.tenants && |scripts| > 0 && NewIds(db.shards, scripts, ids)
    requires e.scripts == Names(scripts, ids, |ids|)
    ensures Enabled(db, e)
    ensures Apply(db, e) == db.(tasks := db.tasks[e.task := NewTask(e.tenant, e.hookUrl, |scripts|, e.at)],
                                shards := Inserted(db.shards, e.task, scripts, ids, |ids|))
  {
    NamesCount(scripts, ids, |ids|);
    NamesFaithful(scripts, ids, |ids|, 0);
    NamesApart(db.shards, scripts, ids);
    InsertedRows(db.shards, e.task, scripts, ids, |ids|);
    SubmitApplied(db, e, ids[0]);
  }

  lemma NamesApart(shards: map<ShardId, Shard>, scripts: seq<string>, ids: seq<ShardId>)
    requires NewIds(shards, scripts, ids)
    ensures Names(scripts, ids, |ids|).Keys !! shards.Keys
  {
    NamesKeys(scripts, ids, |ids|);
    assert ids[..|ids|] == ids;
  }

  lemma SubmitApplied(db: Tables, e: Event, x: ShardId)
    requires e.Submit? && e.task !in db.tasks && e.tenant in db.tenants && x in e.scripts && e.scripts.Keys !! db.shards.Keys
    ensures Enabled(db, e)
    ensures Apply(db, e) == db.(tasks := db.tasks[e.task := NewTask(e.tenant, e.hookUrl, |e.scripts.Keys|, e.at)],
                                shards := db.shards + ShardRows(e.task, e.scripts))
  {
    assert ShardWrites(db, e) == ShardRows(e.task, e.scripts);
    assert db.tasks + TaskWrites(db, e) == db.tasks[e.task := NewTask(e.tenant, e.hookUrl, |e.scripts.Keys|, e.at)];
  }

  /** A shard that passes the checks and is LEASED or RUNNING belongs to the agent, and its task has left WAITING_FOR_AGENTS. */
  lemma TimedOutChecks(log: seq<Event>, s: ShardId, agent: AgentId, tenant: TenantId, backend: string)
    requires Legal(log)
    ensures var db := Exec(log);
      && (LoadValidatedShard(db, s, agent, tenant, backend).None? ==>
          && s in db.shards && db.shards[s].task in db.tasks
          && (db.tasks[db.shards[s].task].status.WaitingForAgents? ==> !db.shards[s].status.Held()))
      && (LoadValidatedShard(db, s, agent, tenant, backend).None? && db.shards[s].status.Held() <==>
          s in HeldBy(db.shards, agent) && Owned(db, db.shards[s].task, tenant, backend))
  {
    JointInvariant(log);
  }

  lemma CancelledRow(db: Tables, e: Event)
    requires e.Cancel? && Addressed(db, e)
    ensures e.task in Apply(db, e).tasks && Apply(db, e).tasks[e.task].finishedAt == Some(e.at)
  {
    ApplyTask(db, e, e.task);
  }

  lemma OpenUnfinished(log: seq<Event>, t: TaskId)
    requires Legal(log) && t in Exec(log).tasks
    ensures !Exec(log).tasks[t].status.Terminal() ==> Exec(log).tasks[t].finishedAt.None?
  {
    JointInvariant(log);
    assert FinishFits(Exec(log).tasks[t]);
  }

  /** Every LEASED or RUNNING shard has an agent to notify. */
  lemma HoldersHeld(log: seq<Event>, t: TaskId)
    requires Legal(log)
    ensures var shards := Exec(log).shards; forall x :: x in HoldersOf(shards, t) <==>
      x in shards && shards[x].task == t && (shards[x].status == ShardStatus.Leased || shards[x].status == ShardStatus.Running)
  {
    JointInvariant(log);
  }

  lemma HeldTask(log: seq<Event>, s: ShardId)
    requires Legal(log) && s in Exec(log).shards
    ensures Exec(log).shards[s].task in Exec(log).tasks
    ensures var db := Exec(log); db.shards[s].status.Held() ==> db.tasks[db.shards[s].task].status.Rank() >= 2
  {
    JointInvariant(log);
  }

  lemma RollbackTables(db: Tables, s: ShardId, from: set<ShardStatus>)
    requires s in db.shards && db.shards[s].status in from && from <= {ShardStatus.Leased, ShardStatus.Running}
    ensures Enabled(db, Rollback(s, from))
    ensures Apply(db, Rollback(s, from)) == db.(shards := db.shards[s := RequeueRow(db.shards[s])])
  {
    assert db.tasks + map[] == db.tasks;
  }

  lemma LeaseSame(db: Tables, e: Event)
    requires e.Lease? && Addressed(db, e)
    ensures SameTables(db, Apply(db, e))
  {
    forall t | t in db.tasks ensures t in Apply(db, e).tasks && Apply(db, e).tasks[t].tenant == db.tasks[t].tenant { ApplyTask(db, e, t); }
    forall x | x in db.shards ensures x in Apply(db, e).shards && Apply(db, e).shards[x].task == db.shards[x].task { ApplyShard(db, e, x); }
  }

  lemma CancelSame(db: Tables, e: Event)
    requires e.Cancel? && Addressed(db, e)
    ensures SameTables(db, Apply(db, e))
  {
    forall t | t in db.tasks ensures t in Apply(db, e).tasks && Apply(db, e).tasks[t].tenant == db.tasks[t].tenant { ApplyTask(db, e, t); }
    forall x | x in db.shards ensures x in Apply(db, e).shards && Apply(db, e).shards[x].task == db.shards[x].task { ApplyShard(db, e, x); }
  }

  /** A selected shard keeps its owner; if it can no longer be leased, it or its task has changed. */
  lemma SameEligible(db: Tables, db': Tables, q: LeaseCall, s: ShardId)
    requires Eligible(db, q, s) && SameTables(db, db')
    ensures s in db'.shards && db'.shards[s].task in db'.tasks && Owned(db', db'.shards[s].task, q.tenant, q.backend)
    ensures !(db'.shards[s].status.Queued? && db'.tasks[db'.shards[s].task].status.Leasable()) ==> ChangedSince(db, db', s)
  {
  }

  /** Only a task that has left WAITING_FOR_AGENTS has a shard that is not QUEUED. */
  lemma WaitingQueued(log: seq<Event>, s: ShardId)
    requires Legal(log) && s in Exec(log).shards && Exec(log).shards[s].task in Exec(log).tasks
    ensures Exec(log).tasks[Exec(log).shards[s].task].status.WaitingForAgents? ==> Exec(log).shards[s].status.Queued?
  {
    JointInvariant(log);
  }

  lemma LeaseTables(db: Tables, e: Event, db': Tables)
    requires e.Lease? && Addressed(db, e)
    requires var t := db.shards[e.shard].task;
      db' == db.(shards := db.shards[e.shard := LeaseRow(db.shards[e.shard], e.agent)],
                 tasks := if db.tasks[t].status.WaitingForAgents? then db.tasks[t := PromoteTask(db.tasks[t])] else db.tasks)
    ensures db' == Apply(db, e)
  {
    assert db'.tasks == db.tasks + TaskWrites(db, e);
    assert db'.shards == db.shards + ShardWrites(db, e);
  }

  lemma CancelTables(db: Tables, e: Event, db': Tables)
    requires e.Cancel? && TimesBounded(db, e.at) && e.at <= e.shardsAt
    requires e.task in db.tasks && db.tasks[e.task].tenant == e.tenant && !db.tasks[e.task].status.Terminal()
    requires db'.tenants == db.tenants && db'.shards.Keys == db.shards.Keys
    requires db'.tasks == db.tasks[e.task := CloseTask(db.tasks[e.task], TaskStatus.Cancelled, "", e.at)]
    requires forall x :: x in db'.shards ==>
      db'.shards[x] == if db.shards[x].task == e.task && !db.shards[x].status.Terminal() then CancelRow(db.shards[x], e.shardsAt) else db.shards[x]
    ensures Enabled(db, e) && db' == Apply(db, e)
  {
    FreshNow(db, e.at, e.task);
    assert db'.tasks == db.tasks + TaskWrites(db, e);
    assert db'.shards == db.shards + ShardWrites(db, e);
  }

  lemma ReportTimes(e: Event, r: Report, at: Time, closedAt: Time)
    requires Reports(e, r, at, closedAt) && r.now <= at <= closedAt
    ensures TimesOf(e, closedAt)
  {
  }

  lemma LaterClock(db: Tables, now: Time, later: Time)
    requires TimesBounded(db, now) && now <= later
    ensures TimesBounded(db, later)
  {
  }

  /** One more event keeps the log legal and the recorded times behind the clock. */
  lemma Recorded(log: seq<Event>, e: Event, clock: Time, now: Time)
    requires Legal(log) && TimesBounded(Exec(log), clock) && clock <= now && Enabled(Exec(log), e) && TimesOf(e, now)
    ensures Legal(log + [e]) && Exec(log + [e]) == Apply(Exec(log), e) && TimesBounded(Apply(Exec(log), e), now)
  {
    LegalMore(log, e);
    ApplyRows(Exec(log), e);
    LaterClock(Exec(log), clock, now);
    TimesAfter(Exec(log), e, Apply(Exec(log), e), now);
  }

  lemma StartTables(db: Tables, e: Event, clock: Time, db': Tables)
    requires TimesBounded(db, clock) && e.Start? && clock <= e.reportedAt <= e.at && Addressed(db, e)
    requires db.shards[e.shard].status.Leased? && !db.tasks[db.shards[e.shard].task].status.Cancelled?
    requires db' == db.(shards := db.shards[e.shard := StartRow(db.shards[e.shard], e.at)],
                        tasks := db.tasks[db.shards[e.shard].task := RunTask(db.tasks[db.shards[e.shard].task], e.reportedAt)])
    ensures Enabled(db, e) && db' == Apply(db, e)
  {
    LaterClock(db, clock, e.at);
    FreshNow(db, e.at, db.shards[e.shard].task);
    assert db'.tasks == db.tasks + TaskWrites(db, e);
    assert db'.shards == db.shards + ShardWrites(db, e);
  }

  /** What recompute, run on the tables with the shard already moved, leaves behind is the event's effect. */
  lemma FinishTables(db: Tables, e: Event, clock: Time, db': Tables, hook: Option<Payload>)
    requires TimesBounded(db, clock) && e.Finish? && clock <= e.at <= e.closedAt && Addressed(db, e)
    requires db.shards[e.shard].status.Running? && !db.tasks[db.shards[e.shard].task].status.Cancelled?
    requires var t := db.shards[e.shard].task; var mid := WithShard(db, e.shard, FinishRow(db.shards[e.shard], e.outcome, e.at));
      && db'.tenants == db.tenants && db'.shards == mid.shards && t in db'.tasks && e.note == db'.tasks[t].lastError
      && if !db.tasks[t].status.Terminal() && !HasActive(mid, t) then
           && db'.tasks == db.tasks[t := db'.tasks[t]]
           && (if HasFailed(mid, t)
               then Resolved(mid, t, Fallback(e.outcome), e.note) &&
                    db'.tasks[t] == CloseTask(db.tasks[t], TaskStatus.Failed, e.note, e.closedAt)
               else db'.tasks[t] == CloseTask(db.tasks[t], TaskStatus.Succeeded, "", e.closedAt))
           && hook == NewPayload(t, db'.tasks[t], db'.tasks[t].status.Succeeded?)
         else db'.tasks == db.tasks && hook.None?
    ensures Enabled(db, e) && db' == Apply(db, e) && hook == HookOf(db, e)
  {
    var t := db.shards[e.shard].task;
    LaterClock(db, clock, e.at);
    FreshNow(db, e.at, t);
    CountsSee(db, e.shard, t, e.outcome, e.at);
    assert db'.tasks == db.tasks + TaskWrites(db, e);
    assert db'.shards == db.shards + ShardWrites(db, e);
  }
}
