/**
 The calls of the statement-level system as their callers see them: exactly when
 a call gives up, that it ends, and that what it commits is what was asked.
 */
module Calls {
  import opened Rows
  import opened Ledger
  import opened Interleaving
  import opened Queue
  import opened Assertions
  import opened Statements
  import opened Serializable
  import opened Concurrency
  import Columns

  /******* When a call gives up *******/

  /** The rollback's reason does not apply to the shard's row, column by column. */
  ghost predicate NoReason(db: Tables, row: Shard, why: Why) {
    match why
    case TimedOut(agent, tenant, backend) =>
      || (row.agent != Some(agent) && Columns.IsActive(row))
      || row.task !in db.tasks || db.tasks[row.task].tenant != tenant || tenant !in db.tenants || db.tenants[tenant].backend != backend
    case Orphan(registered, cutoff) =>
      || (row.status != ShardStatus.Leased && row.status != ShardStatus.Running)
      || row.agent.None? || row.agent.value in registered || row.startedAt.None? || row.startedAt.value >= cutoff
    case AgentIdle(agent) =>
      (row.status != ShardStatus.Leased && row.status != ShardStatus.Running) || row.agent != Some(agent)
  }

  /** The statement ends the call without effect: the committed row it looks at rules the request out. */
  ghost predicate GivesUp(db: Tables, prog: Prog, luck: Luck) {
    match prog
    case ReadShard(r) => r.shard !in db.shards
    case LockTask(r, stale) =>
      && stale.task in db.tasks && db.tasks[stale.task].status == TaskStatus.Cancelled
      && !(r.ask.AskEnd? && r.ask.outcome.Success? && stale.status == ShardStatus.Succeeded && stale.outputKey != "")
    case MoveShard(r, _, _) =>
      && r.shard in db.shards
      && ((r.ask.AskRunning? && db.shards[r.shard].status != ShardStatus.Leased) || (r.ask.AskEnd? && db.shards[r.shard].status != ShardStatus.Running))
    case LeaseSelect(q, _) => AllClosed(db, q.tenant, q.backend)
    case LeaseLoad(_, tries, s, _) =>
      && tries == 99 && s in db.shards && db.shards[s].task in db.tasks && !Columns.IsOpen(db.tasks[db.shards[s].task])
    case LeaseCas(_, tries, s, _, _, _, _) => tries == 99 && s in db.shards && db.shards[s].status != ShardStatus.Queued
    case Handover(_, _, _) => luck.sent
    case CancelRead(t, _) => t !in db.tasks
    case CancelTask(t, tenant, _) => t in db.tasks && (db.tasks[t].tenant != tenant || !Columns.IsOpen(db.tasks[t]))
    case RollbackRead(s, why) => s !in db.shards || NoReason(db, db.shards[s], why)
    case RollbackShard(s, from, _) => s !in db.shards || db.shards[s].status !in from
    case _ => false
  }

  lemma ReportGivesUp(db: Tables, now: Time, ids: map<AgentId, Identity>, p: Proc, luck: Luck)
    requires InReport(p.prog) && ProcOk(db, now, ids, p) && WellFormed(db)
    ensures After(db, now, p, luck).Quit? <==> GivesUp(db, p.prog, luck)
  {
    ViewOfWrites(db, p.txn);
    if p.prog.LockTask? { assert db.shards[p.prog.r.shard].task in db.tasks; }
  }

  lemma RecomputeGivesUp(db: Tables, now: Time, ids: map<AgentId, Identity>, p: Proc, luck: Luck)
    requires InRecompute(p.prog) && ProcOk(db, now, ids, p)
    ensures After(db, now, p, luck).Continue?
  {
    ViewOfWrites(db, p.txn);
  }

  lemma LeaseGivesUp(db: Tables, now: Time, ids: map<AgentId, Identity>, p: Proc, luck: Luck)
    requires InLease(p.prog) && ProcOk(db, now, ids, p) && Choice(db, p, luck)
    ensures After(db, now, p, luck).Quit? <==> GivesUp(db, p.prog, luck)
  {
    ViewOfWrites(db, p.txn);
    if p.prog.LeaseSelect? { SelectQuits(db, now, p, luck); }
    if p.prog.LeaseCas? { AfterLeaseCas(db, now, p, luck); }
  }

  lemma CancelGivesUp(db: Tables, now: Time, ids: map<AgentId, Identity>, p: Proc, luck: Luck)
    requires InCancel(p.prog) && ProcOk(db, now, ids, p)
    ensures After(db, now, p, luck).Quit? <==> GivesUp(db, p.prog, luck)
  {
    if p.prog.CancelRead? || p.prog.CancelTask? { CancelStarts(db, now, p, luck); } else { CancelGoesOn(db, now, p, luck); }
  }

  lemma CancelStarts(db: Tables, now: Time, p: Proc, luck: Luck)
    requires (p.prog.CancelRead? || (p.prog.CancelTask? && p.prog.t in db.tasks)) && p.txn == IDLE
    ensures After(db, now, p, luck).Quit? <==> GivesUp(db, p.prog, luck)
  {
    ViewOfWrites(db, p.txn);
  }

  lemma CancelGoesOn(db: Tables, now: Time, p: Proc, luck: Luck)
    requires p.prog.CancelScan? || p.prog.CancelShards?
    ensures After(db, now, p, luck).Continue?
  {
  }

  lemma RollbackGivesUp(db: Tables, now: Time, ids: map<AgentId, Identity>, p: Proc, luck: Luck)
    requires p.prog.RollbackRead? || p.prog.RollbackLoad? || p.prog.RollbackShard? || p.prog.Refresh?
    requires ProcOk(db, now, ids, p)
    ensures After(db, now, p, luck).Quit? <==> GivesUp(db, p.prog, luck)
  {
    ViewOfWrites(db, p.txn);
  }

  /**
   In every reachable state a call gives up at its next statement exactly when the
   committed row that statement looks at rules its request out. Once a report has
   moved its shard, or a cancel its task, nothing but an abort keeps it from its commit.
   */
  lemma GivesUpExactly(actions: seq<Action>, pid: Pid, luck: Luck)
    requires Feasible(actions) && Can(Run(actions), Statement(pid, luck))
    ensures var sys := Run(actions); After(sys.db, sys.now, sys.procs[pid], luck).Quit? <==> GivesUp(sys.db, sys.procs[pid].prog, luck)
  {
    KnowsItsPlace(actions, pid);
    CommittedStates(actions);
    var sys := Run(actions);
    QuitsExactly(sys.db, sys.now, sys.ids, sys.procs[pid], luck);
  }

  lemma QuitsExactly(db: Tables, now: Time, ids: map<AgentId, Identity>, p: Proc, luck: Luck)
    requires ProcOk(db, now, ids, p) && Choice(db, p, luck) && WellFormed(db) && !p.prog.Commit? && !p.prog.Dispatch?
    ensures After(db, now, p, luck).Quit? <==> GivesUp(db, p.prog, luck)
  {
    if InReport(p.prog) { ReportGivesUp(db, now, ids, p, luck); }
    else if InRecompute(p.prog) { RecomputeGivesUp(db, now, ids, p, luck); }
    else if InLease(p.prog) { LeaseGivesUp(db, now, ids, p, luck); }
    else if InCancel(p.prog) { CancelGivesUp(db, now, ids, p, luck); }
    else { RollbackGivesUp(db, now, ids, p, luck); }
  }

  /******* Every call ends *******/

  /** Statements left at most, not counting the shards of a bulk cancel. */
  function StepsLeft(prog: Prog): nat {
    match prog
    case ReadShard(_) => 10
    case LockTask(_, _) => 9
    case MoveShard(_, _, _) => 8
    case WriteOutput(_, _, _) => 7
    case MarkTask(_, _, _, _) => 2
    case Reload(_, _, _) => 6
    case CountActive(_, _, _) => 5
    case CountFailed(_, _, _) => 4
    case Resolve(_, _, _, _) => 3
    case CloseIt(_, _, _, _, _, _) => 2
    case LeaseSelect(_, tries) => if tries < MAX_TRIES then 10 + 4 * (MAX_TRIES - tries) else 10
    case LeaseLoad(_, tries, _, _) => if tries < MAX_TRIES then 9 + 4 * (MAX_TRIES - tries) else 9
    case LeasePromote(_, tries, _, _, _) => if tries < MAX_TRIES then 8 + 4 * (MAX_TRIES - tries) else 8
    case LeaseCas(_, tries, _, _, _, _, _) => if tries < MAX_TRIES then 7 + 4 * (MAX_TRIES - tries) else 7
    case Commit(event, _, _) => if event.Some? && event.value.Lease? then 6 else 1
    case Handover(_, _, _) => 5
    case RollbackRead(_, _) => 5
    case RollbackLoad(_, _) => 4
    case RollbackShard(_, _, _) => 3
    case RollbackTask(_, _, _) => 2
    case CancelRead(_, _) => 5
    case CancelTask(_, _, _) => 4
    case CancelScan(_, _, _, _) => 3
    case CancelShards(_, _, _, _, _, _) => 2
    case Refresh(_, _) => 1
    case Dispatch(_, _) => 0
  }

  /** Closer to the end: fewer statements, or fewer shards of a bulk cancel. */
  ghost predicate Closer(prog: Prog, prog': Prog) {
    || StepsLeft(prog') < StepsLeft(prog)
    || (prog.CancelShards? && prog'.CancelShards? && prog'.todo < prog.todo)
  }

  lemma ReportEnds(db: Tables, now: Time, p: Proc, luck: Luck)
    requires InReport(p.prog) || InRecompute(p.prog)
    ensures var res := After(db, now, p, luck); res.Continue? ==> Closer(p.prog, res.proc.prog)
  {
  }

  lemma LeaseEnds(db: Tables, now: Time, p: Proc, luck: Luck)
    requires InLease(p.prog) && (p.prog.Handover? || p.prog.tries < MAX_TRIES)
    ensures var res := After(db, now, p, luck); res.Continue? ==> Closer(p.prog, res.proc.prog)
  {
  }

  lemma CancelEnds(db: Tables, now: Time, p: Proc, luck: Luck)
    requires InCancel(p.prog) && (p.prog.CancelShards? && p.prog.todo != {} ==> luck.pick in p.prog.todo)
    ensures var res := After(db, now, p, luck); res.Continue? ==> Closer(p.prog, res.proc.prog)
  {
  }

  lemma RollbackReadEnds(db: Tables, now: Time, p: Proc, luck: Luck)
    requires p.prog.RollbackRead?
    ensures var res := After(db, now, p, luck); res.Continue? ==> Closer(p.prog, res.proc.prog)
  {
  }

  lemma RollbackEnds(db: Tables, now: Time, p: Proc, luck: Luck)
    requires p.prog.RollbackLoad? || p.prog.RollbackShard? || p.prog.Refresh?
    ensures var res := After(db, now, p, luck); res.Continue? ==> Closer(p.prog, res.proc.prog)
  {
  }

  predicate InRollback(prog: Prog) {
    prog.RollbackRead? || prog.RollbackLoad? || prog.RollbackShard? || prog.RollbackTask?
  }

  /** Every statement takes its call closer to its end, in every reachable state; a lease tries a hundred times at most. */
  lemma EveryCallEnds(actions: seq<Action>, pid: Pid, luck: Luck)
    requires Feasible(actions) && Can(Run(actions), Statement(pid, luck))
    ensures var sys := Run(actions); var res := After(sys.db, sys.now, sys.procs[pid], luck);
      res.Continue? ==> Closer(sys.procs[pid].prog, res.proc.prog)
  {
    KnowsItsPlace(actions, pid);
    var sys := Run(actions);
    StatementEnds(sys.db, sys.now, sys.ids, sys.procs[pid], luck);
  }

  lemma StatementEnds(db: Tables, now: Time, ids: map<AgentId, Identity>, p: Proc, luck: Luck)
    requires ProcOk(db, now, ids, p) && Choice(db, p, luck) && !p.prog.Commit? && !p.prog.Dispatch?
    ensures var res := After(db, now, p, luck); res.Continue? ==> Closer(p.prog, res.proc.prog)
  {
    if InReport(p.prog) || InRecompute(p.prog) { ReportEnds(db, now, p, luck); }
    else if InLease(p.prog) { LeaseEnds(db, now, p, luck); }
    else if InCancel(p.prog) { CancelEnds(db, now, p, luck); }
    else if p.prog.RollbackRead? { RollbackReadEnds(db, now, p, luck); }
    else { RollbackEnds(db, now, p, luck); }
  }

  /******* What was asked is what is committed *******/

  /** The report a process is working on. */
  predicate WorksOn(prog: Prog, r: Report) {
    (InReport(prog) || InRecompute(prog)) && prog.r == r
  }

  /** The event is the one the report asks for. */
  predicate Answers(e: Event, r: Report) {
    match r.ask
    case AskRunning => e.Start? && e.shard == r.shard && e.reportedAt == r.now
    case AskEnd(o) => e.Finish? && e.shard == r.shard && e.outcome == o
    case AskNothing => false
  }

  /**
   A report's process stays with its report until its commit, in every reachable
   state, and commits the event it asks for; or nothing, if it asks for nothing
   or repeats a success that is recorded.
   */
  lemma ReportAnswered(actions: seq<Action>, pid: Pid, luck: Luck, r: Report)
    requires Feasible(actions) && Can(Run(actions), Statement(pid, luck)) && WorksOn(Run(actions).procs[pid].prog, r)
    ensures var sys := Run(actions); var res := After(sys.db, sys.now, sys.procs[pid], luck);
      res.Continue? ==>
        || WorksOn(res.proc.prog, r)
        || (res.proc.prog.Commit? && res.proc.prog.event.Some? && Answers(res.proc.prog.event.value, r))
        || (res.proc.prog == Commit(None, None, None) && (r.ask.AskNothing? || RecordedAlready(sys.db, r)))
  {
    KnowsItsPlace(actions, pid);
    var sys := Run(actions);
    StatementAnswers(sys.db, sys.now, sys.ids, sys.procs[pid], luck);
  }

  /** The shard is SUCCEEDED with an output, and the report says so again. */
  predicate RecordedAlready(db: Tables, r: Report) {
    && r.ask.AskEnd? && r.ask.outcome.Success? && r.shard in db.shards
    && db.shards[r.shard].status == ShardStatus.Succeeded && db.shards[r.shard].outputKey != ""
  }

  ghost predicate Answered(db: Tables, r: Report, res: Result) {
    res.Continue? ==>
      || WorksOn(res.proc.prog, r)
      || (res.proc.prog.Commit? && res.proc.prog.event.Some? && Answers(res.proc.prog.event.value, r))
      || (res.proc.prog == Commit(None, None, None) && (r.ask.AskNothing? || RecordedAlready(db, r)))
  }

  lemma ReportAnswers(db: Tables, now: Time, ids: map<AgentId, Identity>, p: Proc, luck: Luck)
    requires InReport(p.prog) && ProcOk(db, now, ids, p)
    ensures Answered(db, p.prog.r, After(db, now, p, luck))
  {
    ViewOfWrites(db, p.txn);
  }

  lemma RecomputeAnswers(db: Tables, now: Time, p: Proc, luck: Luck)
    requires InRecompute(p.prog) && p.prog.r.ask.AskEnd?
    ensures Answered(db, p.prog.r, After(db, now, p, luck))
  {
  }

  lemma StatementAnswers(db: Tables, now: Time, ids: map<AgentId, Identity>, p: Proc, luck: Luck)
    requires (InReport(p.prog) || InRecompute(p.prog)) && ProcOk(db, now, ids, p)
    ensures Answered(db, p.prog.r, After(db, now, p, luck))
  {
    if InReport(p.prog) { ReportAnswers(db, now, ids, p, luck); } else { RecomputeAnswers(db, now, p, luck); }
  }

  /** A cancel stays with its task and tenant, and commits their cancel. */
  lemma CancelAnswered(db: Tables, now: Time, p: Proc, luck: Luck)
    requires InCancel(p.prog) && After(db, now, p, luck).Continue?
    ensures var prog, prog' := p.prog, After(db, now, p, luck).proc.prog;
      || (InCancel(prog') && prog'.t == prog.t && prog'.tenant == prog.tenant)
      || (prog'.Commit? && prog'.event.Some? && prog'.event.value.Cancel? && prog'.event.value.task == prog.t && prog'.event.value.tenant == prog.tenant)
  {
  }

  /** A rollback stays with its shard, and commits its rollback. */
  lemma RollbackAnswered(db: Tables, now: Time, p: Proc, luck: Luck)
    requires InRollback(p.prog) && After(db, now, p, luck).Continue?
    ensures var prog, prog' := p.prog, After(db, now, p, luck).proc.prog;
      || (InRollback(prog') && prog'.s == prog.s)
      || (prog'.Commit? && prog'.event.Some? && prog'.event.value.Rollback? && prog'.event.value.shard == prog.s)
  {
  }

  /**
   In every interleaving a finished shard's row carries what one committed event
   said of it: output key and checksum, or error text, and the time.
   */
  lemma RunRecordedEnd(actions: seq<Action>, x: ShardId) returns (k: nat)
    requires Feasible(actions) && x in Run(actions).db.shards && !Columns.IsActive(Run(actions).db.shards[x])
    ensures k < |Run(actions).log| && Columns.EndedBy(Run(actions).log[k], x, Run(actions).db.shards[x])
  {
    Serializability(actions);
    k := Columns.RecordedEnd(Run(actions).log, x);
  }
}
