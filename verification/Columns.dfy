/**
 Column by column, what each transaction asks of the rows and does to them: a
 reference that names none of the row updates, guards and effects of `Rows`,
 `Ledger` and `Queue`, and is proved to say the same.
 */
module Columns {
  import opened Rows
  import opened Ledger
  import opened LedgerLaws

  /** A FAILED shard of the task that has an error text. */
  predicate Accuses(shards: map<ShardId, Shard>, t: TaskId, x: ShardId) {
    x in shards && shards[x].task == t && shards[x].status == ShardStatus.Failed && shards[x].lastError != ""
  }

  /** The error a failed task is closed with: that of a failed shard that finished last among those with a text, else the given one. */
  ghost predicate Blamed(shards: map<ShardId, Shard>, t: TaskId, given: string, text: string) {
    if forall x :: !Accuses(shards, t, x) then text == if given != "" then given else "task failed because one or more shards failed"
    else exists x :: Accuses(shards, t, x) && text == shards[x].lastError && NoneLater(shards, t, x)
  }

  ghost predicate NoneLater(shards: map<ShardId, Shard>, t: TaskId, x: ShardId)
    requires x in shards
  {
    forall y :: Accuses(shards, t, y) && shards[y].finishedAt.Some? && shards[x].finishedAt.Some? ==>
      shards[y].finishedAt.value <= shards[x].finishedAt.value
  }

  /** No time recorded on the task or its shards is later. */
  ghost predicate PastAll(db: Tables, t: TaskId, at: Time) {
    && (t in db.tasks && db.tasks[t].startedAt.Some? ==> db.tasks[t].startedAt.value <= at)
    && (forall x :: x in db.shards && db.shards[x].task == t && db.shards[x].startedAt.Some? ==> db.shards[x].startedAt.value <= at)
    && (forall x :: x in db.shards && db.shards[x].task == t && db.shards[x].finishedAt.Some? ==> db.shards[x].finishedAt.value <= at)
  }

  /** The other shards of the task are all SUCCEEDED, FAILED or CANCELLED. */
  ghost predicate OthersDone(db: Tables, t: TaskId, s: ShardId) {
    forall x :: x in db.shards && db.shards[x].task == t && x != s ==>
      db.shards[x].status == ShardStatus.Succeeded || db.shards[x].status == ShardStatus.Failed || db.shards[x].status == ShardStatus.Cancelled
  }

  ghost predicate AnotherFailed(db: Tables, t: TaskId, s: ShardId) {
    exists x :: x in db.shards && db.shards[x].task == t && x != s && db.shards[x].status == ShardStatus.Failed
  }

  predicate IsOpen(t: Task) {
    t.status != TaskStatus.Succeeded && t.status != TaskStatus.Failed && t.status != TaskStatus.Cancelled
  }

  predicate IsActive(s: Shard) {
    s.status == ShardStatus.Queued || s.status == ShardStatus.Leased || s.status == ShardStatus.Running
  }

  ghost predicate Submits(a: Tables, b: Tables, t: TaskId, n: TenantId, url: string, at: Time, scripts: map<ShardId, string>) {
    && t !in a.tasks && n in a.tenants && scripts != map[] && (forall x :: x in scripts ==> x !in a.shards)
    && b.tenants == a.tenants && b.tasks == a.tasks[t := Task(n, TaskStatus.Pending, url, |scripts|, at, None, None, "")]
    && b.shards.Keys == a.shards.Keys + scripts.Keys
    && (forall x :: x in a.shards ==> b.shards[x] == a.shards[x])
    && (forall x :: x in scripts ==> b.shards[x] == Shard(t, scripts[x], ShardStatus.Queued, None, "", "", None, None, ""))
  }

  ghost predicate Polls(a: Tables, b: Tables, t: TaskId, to: TaskStatus, note: string) {
    && t in a.tasks && a.tasks[t].status == TaskStatus.Pending
    && (to == TaskStatus.Pending || to == TaskStatus.WaitingForAgents || to == TaskStatus.Failed)
    && b == a.(tasks := a.tasks[t := a.tasks[t].(status := to, lastError := note)])
  }

  ghost predicate Leases(a: Tables, b: Tables, s: ShardId, agent: AgentId, n: TenantId, backend: string) {
    && s in a.shards && a.shards[s].status == ShardStatus.Queued && a.shards[s].task in a.tasks
    && var t := a.shards[s].task;
    && IsOpen(a.tasks[t]) && a.tasks[t].status != TaskStatus.Pending
    && a.tasks[t].tenant == n && n in a.tenants && a.tenants[n].backend == backend
    && b.tenants == a.tenants && b.shards == a.shards[s := a.shards[s].(status := ShardStatus.Leased, agent := Some(agent))]
    && b.tasks == if a.tasks[t].status == TaskStatus.WaitingForAgents then a.tasks[t := a.tasks[t].(status := TaskStatus.Queued)] else a.tasks
  }

  ghost predicate Starts(a: Tables, b: Tables, s: ShardId, now: Time, at: Time) {
    && s in a.shards && a.shards[s].status == ShardStatus.Leased && a.shards[s].task in a.tasks
    && var t := a.shards[s].task;
    && a.tasks[t].status != TaskStatus.Cancelled && now <= at && PastAll(a, t, at)
    && b.tenants == a.tenants && b.shards == a.shards[s := a.shards[s].(status := ShardStatus.Running, startedAt := Some(at))]
    && b.tasks == a.tasks[t := a.tasks[t].(status := TaskStatus.Running,
                                           startedAt := if a.tasks[t].startedAt.Some? then a.tasks[t].startedAt else Some(now))]
  }

  ghost predicate Finishes(a: Tables, b: Tables, s: ShardId, o: Outcome, at: Time, closedAt: Time, note: string) {
    && s in a.shards && a.shards[s].status == ShardStatus.Running && a.shards[s].task in a.tasks
    && var t := a.shards[s].task;
    && a.tasks[t].status != TaskStatus.Cancelled && at <= closedAt && PastAll(a, t, at) && b.tenants == a.tenants
    && b.shards == a.shards[s := FinishedColumns(a.shards[s], o, at)]
    && if !IsOpen(a.tasks[t]) || !OthersDone(a, t, s) then b.tasks == a.tasks
       else if o.Failure? || AnotherFailed(a, t, s) then
         && Blamed(b.shards, t, if o.Failure? then o.message else "", note)
         && b.tasks == a.tasks[t := a.tasks[t].(status := TaskStatus.Failed, finishedAt := Some(closedAt), lastError := note)]
       else b.tasks == a.tasks[t := a.tasks[t].(status := TaskStatus.Succeeded, finishedAt := Some(closedAt), lastError := "")]
  }

  function FinishedColumns(s: Shard, o: Outcome, at: Time): Shard {
    if o.Success? then s.(status := ShardStatus.Succeeded, finishedAt := Some(at), outputKey := o.key, outputSha := o.sha)
    else s.(status := ShardStatus.Failed, finishedAt := Some(at), lastError := o.message)
  }

  ghost predicate Cancels(a: Tables, b: Tables, t: TaskId, n: TenantId, at: Time, shardsAt: Time) {
    && t in a.tasks && a.tasks[t].tenant == n && IsOpen(a.tasks[t]) && at <= shardsAt && PastAll(a, t, at)
    && b.tenants == a.tenants && b.shards.Keys == a.shards.Keys
    && b.tasks == a.tasks[t := a.tasks[t].(status := TaskStatus.Cancelled, finishedAt := Some(at), lastError := "")]
    && forall x :: x in a.shards ==>
         b.shards[x] == if a.shards[x].task == t && IsActive(a.shards[x])
                        then a.shards[x].(status := ShardStatus.Cancelled, finishedAt := Some(shardsAt), agent := None, startedAt := None, lastError := "")
                        else a.shards[x]
  }

  ghost predicate Requeues(a: Tables, b: Tables, s: ShardId, from: set<ShardStatus>) {
    && s in a.shards && a.shards[s].status in from && from <= {ShardStatus.Leased, ShardStatus.Running}
    && b == a.(shards := a.shards[s := a.shards[s].(status := ShardStatus.Queued, agent := None)])
  }

  /** The transaction may run on `a` and leaves `b`. */
  ghost predicate Does(a: Tables, e: Event, b: Tables) {
    match e
    case AddTenant(n, row) => n !in a.tenants && b == a.(tenants := a.tenants[n := row])
    case Submit(t, n, url, at, scripts) => Submits(a, b, t, n, url, at, scripts)
    case Poll(t, to, note) => Polls(a, b, t, to, note)
    case Lease(s, agent, n, backend) => Leases(a, b, s, agent, n, backend)
    case Start(s, now, at) => Starts(a, b, s, now, at)
    case Finish(s, o, at, closedAt, note) => Finishes(a, b, s, o, at, closedAt, note)
    case Cancel(t, n, at, shardsAt) => Cancels(a, b, t, n, at, shardsAt)
    case Rollback(s, from) => Requeues(a, b, s, from)
  }

  /******* The reference and the ledger agree *******/

  lemma FreshIsPast(db: Tables, t: TaskId, at: Time)
    requires t in db.tasks
    ensures Fresh(db, t, at) <==> PastAll(db, t, at)
  {
    if PastAll(db, t, at) {
      forall x | IsShardOf(db, x, t) ensures NotAfter(db.shards[x].startedAt, Some(at)) && NotAfter(db.shards[x].finishedAt, Some(at)) { }
    }
    if Fresh(db, t, at) {
      forall x | x in db.shards && db.shards[x].task == t
        ensures NotAfter(db.shards[x].startedAt, Some(at)) && NotAfter(db.shards[x].finishedAt, Some(at))
      {
        assert IsShardOf(db, x, t);
      }
    }
  }

  lemma ResolvedIsBlamed(db: Tables, t: TaskId, given: string, text: string)
    ensures Resolved(db, t, given, text) <==> Blamed(db.shards, t, given, text)
  {
    assert forall x :: Blames(db, x, t) <==> Accuses(db.shards, t, x);
    if Blamed(db.shards, t, given, text) && exists x :: Accuses(db.shards, t, x) {
      var x :| Accuses(db.shards, t, x) && text == db.shards[x].lastError && NoneLater(db.shards, t, x);
      assert Blames(db, x, t);
    }
    if Resolved(db, t, given, text) && exists x :: Accuses(db.shards, t, x) {
      var x :| Blames(db, x, t) && db.shards[x].lastError == text &&
          forall y :: Blames(db, y, t) ==> NotAfter(db.shards[y].finishedAt, db.shards[x].finishedAt);
      assert NoneLater(db.shards, t, x);
    }
  }

  lemma OthersAgree(db: Tables, t: TaskId, s: ShardId)
    ensures OthersDone(db, t, s) <==> !OthersActive(db, t, s)
    ensures AnotherFailed(db, t, s) <==> OthersFailed(db, t, s)
  {
    assert forall x :: IsShardOf(db, x, t) <==> x in db.shards && db.shards[x].task == t;
  }

  /** The shard table with the new rows, said row by row. */
  lemma NewRows(a: map<ShardId, Shard>, b: map<ShardId, Shard>, more: map<ShardId, Shard>)
    requires forall x :: x in more ==> x !in a
    ensures b == a + more <==>
      b.Keys == a.Keys + more.Keys && (forall x :: x in a ==> x in b && b[x] == a[x]) && (forall x :: x in more ==> x in b && b[x] == more[x])
  {
  }

  lemma SubmitAgrees(a: Tables, e: Event, b: Tables)
    requires e.Submit?
    ensures Does(a, e, b) <==> Enabled(a, e) && b == Apply(a, e)
  {
    SubmittedTask(a, e);
    forall x
      ensures x in ShardWrites(a, e) <==> x in e.scripts
      ensures x in e.scripts ==> ShardWrites(a, e)[x] == Shard(e.task, e.scripts[x], ShardStatus.Queued, None, "", "", None, None, "")
    {
      SubmittedShard(a, e, x);
    }
    SubmitRows(a, e, b, ShardWrites(a, e));
  }

  lemma SubmitRows(a: Tables, e: Event, b: Tables, more: map<ShardId, Shard>)
    requires e.Submit?
    requires forall x :: x in more <==> x in e.scripts
    requires forall x :: x in e.scripts ==> more[x] == Shard(e.task, e.scripts[x], ShardStatus.Queued, None, "", "", None, None, "")
    ensures Submits(a, b, e.task, e.tenant, e.hookUrl, e.at, e.scripts) <==>
      && e.task !in a.tasks && e.tenant in a.tenants && e.scripts.Keys != {} && e.scripts.Keys !! a.shards.Keys
      && b.tenants == a.tenants && b.shards == a.shards + more
      && b.tasks == a.tasks[e.task := Task(e.tenant, TaskStatus.Pending, e.hookUrl, |e.scripts.Keys|, e.at, None, None, "")]
  {
    assert |e.scripts| == |e.scripts.Keys| && (e.scripts != map[] <==> e.scripts.Keys != {}) && more.Keys == e.scripts.Keys;
    assert e.scripts.Keys !! a.shards.Keys <==> forall x :: x in e.scripts ==> x !in a.shards;
    if e.scripts.Keys !! a.shards.Keys { NewRows(a.shards, b.shards, more); }
  }

  lemma SubmittedTask(a: Tables, e: Event)
    requires e.Submit?
    ensures Apply(a, e).tenants == a.tenants && Apply(a, e).shards == a.shards + ShardWrites(a, e)
    ensures Apply(a, e).tasks == a.tasks[e.task := Task(e.tenant, TaskStatus.Pending, e.hookUrl, |e.scripts.Keys|, e.at, None, None, "")]
  {
    var row := Task(e.tenant, TaskStatus.Pending, e.hookUrl, |e.scripts.Keys|, e.at, None, None, "");
    assert TaskWrites(a, e) == map[e.task := row];
    assert a.tasks + map[e.task := row] == a.tasks[e.task := row];
  }

  lemma SubmittedShard(a: Tables, e: Event, x: ShardId)
    requires e.Submit?
    ensures x in ShardWrites(a, e) <==> x in e.scripts
    ensures x in e.scripts ==> ShardWrites(a, e)[x] == Shard(e.task, e.scripts[x], ShardStatus.Queued, None, "", "", None, None, "")
  {
  }

  lemma LeaseAgrees(a: Tables, e: Event, b: Tables)
    requires e.Lease?
    ensures Does(a, e, b) <==> Enabled(a, e) && b == Apply(a, e)
  {
    if Addressed(a, e) {
      var t := a.shards[e.shard].task;
      assert a.tasks + map[t := PromoteTask(a.tasks[t])] == a.tasks[t := PromoteTask(a.tasks[t])];
      assert a.tasks + map[] == a.tasks;
      assert a.shards + map[e.shard := LeaseRow(a.shards[e.shard], e.agent)] == a.shards[e.shard := LeaseRow(a.shards[e.shard], e.agent)];
    }
  }

  lemma StartAgrees(a: Tables, e: Event, b: Tables)
    requires e.Start?
    ensures Does(a, e, b) <==> Enabled(a, e) && b == Apply(a, e)
  {
    if Addressed(a, e) {
      var t := a.shards[e.shard].task;
      FreshIsPast(a, t, e.at);
      assert a.tasks + map[t := RunTask(a.tasks[t], e.reportedAt)] == a.tasks[t := RunTask(a.tasks[t], e.reportedAt)];
      assert a.shards + map[e.shard := StartRow(a.shards[e.shard], e.at)] == a.shards[e.shard := StartRow(a.shards[e.shard], e.at)];
    }
  }

  /** The shard table a finish leaves is the one its error text was resolved on. */
  lemma BlamedAfter(a: Tables, b: Tables, s: ShardId, row: Shard, t: TaskId, given: string, text: string)
    requires b.shards == a.shards[s := row]
    ensures Resolved(WithShard(a, s, row), t, given, text) <==> Blamed(b.shards, t, given, text)
  {
    ResolvedIsBlamed(WithShard(a, s, row), t, given, text);
  }

  lemma FinishedTask(a: Tables, e: Event)
    requires e.Finish? && Addressed(a, e)
    ensures var s, t := e.shard, a.shards[e.shard].task;
      && Apply(a, e).tenants == a.tenants && Apply(a, e).shards == a.shards[s := FinishedColumns(a.shards[s], e.outcome, e.at)]
      && Apply(a, e).tasks ==
        if !IsOpen(a.tasks[t]) || !OthersDone(a, t, s) then a.tasks
        else if e.outcome.Failure? || AnotherFailed(a, t, s)
        then a.tasks[t := a.tasks[t].(status := TaskStatus.Failed, finishedAt := Some(e.closedAt), lastError := e.note)]
        else a.tasks[t := a.tasks[t].(status := TaskStatus.Succeeded, finishedAt := Some(e.closedAt), lastError := "")]
  {
    var s, t := e.shard, a.shards[e.shard].task;
    OthersAgree(a, t, s);
    var row, final := FinishRow(a.shards[s], e.outcome, e.at), FinalTask(a, t, s, e.outcome, e.closedAt, e.note);
    assert a.shards + map[s := row] == a.shards[s := row];
    assert a.tasks + map[t := final] == a.tasks[t := final];
    assert a.tasks + map[] == a.tasks;
  }

  lemma FinishGuards(a: Tables, e: Event, b: Tables)
    requires e.Finish? && Addressed(a, e) && b.shards == a.shards[e.shard := FinishRow(a.shards[e.shard], e.outcome, e.at)]
    ensures var s, t := e.shard, a.shards[e.shard].task;
      Enabled(a, e) <==>
        && a.shards[s].status == ShardStatus.Running && a.tasks[t].status != TaskStatus.Cancelled && e.at <= e.closedAt && PastAll(a, t, e.at)
        && (IsOpen(a.tasks[t]) && OthersDone(a, t, s) && (e.outcome.Failure? || AnotherFailed(a, t, s)) ==>
            Blamed(b.shards, t, if e.outcome.Failure? then e.outcome.message else "", e.note))
  {
    var s, t := e.shard, a.shards[e.shard].task;
    FreshIsPast(a, t, e.at);
    OthersAgree(a, t, s);
    BlamedAfter(a, b, s, FinishRow(a.shards[s], e.outcome, e.at), t, Fallback(e.outcome), e.note);
  }

  lemma FinishAgrees(a: Tables, e: Event, b: Tables)
    requires e.Finish?
    ensures Does(a, e, b) <==> Enabled(a, e) && b == Apply(a, e)
  {
    if Addressed(a, e) {
      FinishedTask(a, e);
      assert FinishRow(a.shards[e.shard], e.outcome, e.at) == FinishedColumns(a.shards[e.shard], e.outcome, e.at);
      if b.shards == a.shards[e.shard := FinishedColumns(a.shards[e.shard], e.outcome, e.at)] { FinishGuards(a, e, b); }
    }
  }

  lemma CancelledRows(a: Tables, e: Event, b: Tables)
    requires e.Cancel? && Addressed(a, e)
    ensures b.shards == a.shards + ShardWrites(a, e) <==>
      && b.shards.Keys == a.shards.Keys
      && forall x :: x in a.shards ==>
           x in b.shards &&
           b.shards[x] == if a.shards[x].task == e.task && IsActive(a.shards[x])
                          then a.shards[x].(status := ShardStatus.Cancelled, finishedAt := Some(e.shardsAt), agent := None, startedAt := None, lastError := "")
                          else a.shards[x]
  {
  }

  lemma CancelAgrees(a: Tables, e: Event, b: Tables)
    requires e.Cancel?
    ensures Does(a, e, b) <==> Enabled(a, e) && b == Apply(a, e)
  {
    if Addressed(a, e) {
      FreshIsPast(a, e.task, e.at);
      var row := CloseTask(a.tasks[e.task], TaskStatus.Cancelled, "", e.at);
      assert a.tasks + map[e.task := row] == a.tasks[e.task := row];
      CancelledRows(a, e, b);
    }
  }

  lemma PollAgrees(a: Tables, e: Event, b: Tables)
    requires e.Poll? || e.AddTenant? || e.Rollback?
    ensures Does(a, e, b) <==> Enabled(a, e) && b == Apply(a, e)
  {
    assert a.tasks + map[] == a.tasks && a.shards + map[] == a.shards;
    if e.Poll? && e.task in a.tasks {
      var row := a.tasks[e.task].(status := e.to, lastError := e.note);
      assert a.tasks + map[e.task := row] == a.tasks[e.task := row];
    }
    if e.Rollback? && e.shard in a.shards {
      assert a.shards + map[e.shard := RequeueRow(a.shards[e.shard])] == a.shards[e.shard := RequeueRow(a.shards[e.shard])];
    }
  }

  /** The ledger's guards and effects are exactly those of the columns, for every event and all tables. */
  lemma DoesExactly(a: Tables, e: Event, b: Tables)
    ensures Does(a, e, b) <==> Enabled(a, e) && b == Apply(a, e)
  {
    match e
    case Submit(_, _, _, _, _) => SubmitAgrees(a, e, b);
    case Lease(_, _, _, _) => LeaseAgrees(a, e, b);
    case Start(_, _, _) => StartAgrees(a, e, b);
    case Finish(_, _, _, _, _) => FinishAgrees(a, e, b);
    case Cancel(_, _, _, _) => CancelAgrees(a, e, b);
    case _ => PollAgrees(a, e, b);
  }

  /** A start or a finish really changes its shard. */
  lemma StatusChanges(a: Tables, e: Event, b: Tables)
    requires (e.Start? || e.Finish?) && Does(a, e, b)
    ensures e.shard in a.shards && e.shard in b.shards && b.shards[e.shard].status != a.shards[e.shard].status
  {
  }

  /******* What a shard's row remembers of its end *******/

  /** The event ended the shard, and the row tells how. */
  ghost predicate EndedBy(e: Event, x: ShardId, row: Shard) {
    match row.status
    case Succeeded => e.Finish? && e.shard == x && e.outcome == Success(row.outputKey, row.outputSha) && row.finishedAt == Some(e.at)
    case Failed => e.Finish? && e.shard == x && e.outcome == Failure(row.lastError) && row.finishedAt == Some(e.at)
    case Cancelled => e.Cancel? && e.task == row.task && row.finishedAt == Some(e.shardsAt)
    case _ => false
  }
  lemma EndsRow(db: Tables, e: Event, x: ShardId)
    requires Enabled(db, e) && x in db.shards && !db.shards[x].status.Terminal() && ShardAfter(db, e, x).status.Terminal()
    ensures EndedBy(e, x, ShardAfter(db, e, x))
  {
  }

  /** One shard's row over one event. */
  lemma RowEnds(db: Tables, e: Event, x: ShardId, row: Shard)
    requires Enabled(db, e) && (if x in db.shards then row == ShardAfter(db, e, x) else row.status.Queued?)
    ensures if x !in db.shards || !db.shards[x].status.Terminal() then IsActive(row) || EndedBy(e, x, row) else row == db.shards[x]
  {
    if x in db.shards {
      if db.shards[x].status.Terminal() { ShardMoves(db, e, x); }
      else if row.status.Terminal() { EndsRow(db, e, x); }
    }
  }

  lemma LastShard(log: seq<Event>, x: ShardId)
    requires Legal(log) && |log| > 0 && Legal(Front(log)) && x in Exec(log).shards
    ensures var db := Exec(Front(log));
      if x !in db.shards || !db.shards[x].status.Terminal()
      then IsActive(Exec(log).shards[x]) || EndedBy(Last(log), x, Exec(log).shards[x])
      else Exec(log).shards[x] == db.shards[x]
  {
    LastRows(log);
    RowEnds(Exec(Front(log)), Last(log), x, Exec(log).shards[x]);
  }

  /** Every finished shard's row carries what the event that ended it said: output key and checksum, error text, time. */
  lemma {:induction false} RecordedEnd(log: seq<Event>, x: ShardId) returns (k: nat)
    requires Legal(log) && x in Exec(log).shards && !IsActive(Exec(log).shards[x])
    ensures k < |log| && EndedBy(log[k], x, Exec(log).shards[x])
  {
    LastShard(log, x);
    var db := Exec(Front(log));
    if x !in db.shards || !db.shards[x].status.Terminal() {
      k := |log| - 1;
    } else {
      k := RecordedEnd(Front(log), x);
    }
  }

  lemma FinishedAt(log: seq<Event>, k: nat, x: ShardId)
    requires Legal(log) && k < |log| && log[k].Finish? && log[k].shard == x
    ensures Legal(log[..k + 1]) && x in Exec(log[..k + 1]).shards && EndedBy(log[k], x, Exec(log[..k + 1]).shards[x])
  {
    LegalPrefix(log, k + 1);
    var cut := log[..k + 1];
    assert Last(cut) == log[k];
    LastFinish(cut);
  }

  lemma LastFinish(log: seq<Event>)
    requires Legal(log) && |log| > 0 && Last(log).Finish?
    ensures Last(log).shard in Exec(log).shards && EndedBy(Last(log), Last(log).shard, Exec(log).shards[Last(log).shard])
  {
    FinishedRow(Exec(Front(log)), Last(log));
  }

  lemma FinishedRow(db: Tables, e: Event)
    requires Enabled(db, e) && e.Finish?
    ensures e.shard in Apply(db, e).shards && EndedBy(e, e.shard, Apply(db, e).shards[e.shard])
  {
  }

  /** And it is the only event that ever finished the shard: its outcome stays in the row for good. */
  lemma OutcomeRecorded(log: seq<Event>, k: nat, x: ShardId)
    requires Legal(log) && k < |log| && log[k].Finish? && log[k].shard == x
    ensures x in Exec(log).shards && EndedBy(log[k], x, Exec(log).shards[x])
    ensures forall j :: k < j < |log| ==> !(log[j].Finish? && log[j].shard == x)
  {
    FinishedAt(log, k, x);
    ShardHistory(log, k + 1, x);
    forall j | k < j < |log| ensures !(log[j].Finish? && log[j].shard == x) { NotAgain(log, k + 1, j, x); }
  }

  lemma FinishWasRunning(log: seq<Event>, j: nat)
    requires Legal(log) && j < |log| && log[j].Finish?
    ensures Legal(log[..j]) && log[j].shard in Exec(log[..j]).shards && Exec(log[..j]).shards[log[j].shard].status.Running?
  {
    EnabledAt(log, j);
  }

  lemma TerminalAt(log: seq<Event>, k: nat, j: nat, x: ShardId)
    requires Legal(log) && k <= j <= |log| && Legal(log[..k]) && x in Exec(log[..k]).shards && Exec(log[..k]).shards[x].status.Terminal()
    ensures Legal(log[..j]) && x in Exec(log[..j]).shards && Exec(log[..j]).shards[x].status.Terminal()
  {
    LegalPrefix(log, j);
    var cut := log[..j];
    assert cut[..k] == log[..k];
    ShardHistory(cut, k, x);
  }

  lemma NotAgain(log: seq<Event>, k: nat, j: nat, x: ShardId)
    requires Legal(log) && k <= j < |log| && Legal(log[..k]) && x in Exec(log[..k]).shards && Exec(log[..k]).shards[x].status.Terminal()
    ensures !(log[j].Finish? && log[j].shard == x)
  {
    TerminalAt(log, k, j, x);
    if log[j].Finish? { FinishWasRunning(log, j); }
  }
}
