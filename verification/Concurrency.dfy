/**
 Theorems about every reachable state of the statement-level system: the ledger
 laws carry over, locks are taken in one order and never deadlock, a lease is
 all or nothing, and stale reads do no harm.
 */
module Concurrency {
  import opened Rows
  import opened Ledger
  import opened LedgerLaws
  import opened Interleaving
  import opened Queue
  import opened Assertions
  import opened Statements
  import opened Serializable

  /******* Ledger laws at statement level *******/

  lemma LogGrowsOnce(sys: Sys, a: Action)
    requires Can(sys, a)
    ensures sys.log <= Next(sys, a).log
  {
  }

  lemma {:induction false} LogGrows(actions: seq<Action>, k: nat)
    requires Feasible(actions) && k <= |actions|
    ensures Feasible(actions[..k]) && Run(actions[..k]).log <= Run(actions).log
  {
    if k == |actions| {
      assert actions[..k] == actions;
    } else {
      assert Front(actions)[..k] == actions[..k];
      LogGrows(Front(actions), k);
      LogGrowsOnce(Run(Front(actions)), Last(actions));
    }
  }

  /** The tables two moments of one run show are states of one log. */
  lemma SameLog(actions: seq<Action>, k: nat)
    requires Feasible(actions) && k <= |actions|
    ensures Feasible(actions[..k])
    ensures var log, n := Run(actions).log, |Run(actions[..k]).log|;
      && n <= |log| && Legal(log) && Legal(log[..n])
      && Run(actions).db == Exec(log) && Run(actions[..k]).db == Exec(log[..n])
  {
    LogGrows(actions, k);
    Serializability(actions);
    Serializability(actions[..k]);
    var log, n := Run(actions).log, |Run(actions[..k]).log|;
    assert log[..n] == Run(actions[..k]).log;
  }

  /**
   However statements interleave: a finished task never reopens or changes, its
   rank never goes down and `started_at` is written once.
   */
  lemma TaskNeverGoesBack(actions: seq<Action>, k: nat, t: TaskId)
    requires Feasible(actions) && k <= |actions| && Feasible(actions[..k]) && t in Run(actions[..k]).db.tasks
    ensures t in Run(actions).db.tasks && TaskMove(Run(actions[..k]).db.tasks[t], Run(actions).db.tasks[t])
  {
    SameLog(actions, k);
    TaskHistory(Run(actions).log, |Run(actions[..k]).log|, t);
  }

  lemma ShardNeverGoesBack(actions: seq<Action>, k: nat, x: ShardId)
    requires Feasible(actions) && k <= |actions| && Feasible(actions[..k]) && x in Run(actions[..k]).db.shards
    ensures x in Run(actions).db.shards && ShardMove(Run(actions[..k]).db.shards[x], Run(actions).db.shards[x])
  {
    SameLog(actions, k);
    ShardHistory(Run(actions).log, |Run(actions[..k]).log|, x);
  }

  /** Every committed state satisfies the joint invariant, so every open task has a shard left to run. */
  lemma CommittedStates(actions: seq<Action>)
    requires Feasible(actions)
    ensures JointInv(Run(actions).db)
    ensures forall t :: t in Run(actions).db.tasks && !Run(actions).db.tasks[t].status.Terminal() ==> HasActive(Run(actions).db, t)
  {
    Serializability(actions);
    JointInvariant(Run(actions).log);
    var db := Run(actions).db;
    forall t | t in db.tasks && !db.tasks[t].status.Terminal() ensures HasActive(db, t) { assert TaskFits(db, t); }
  }

  /**
   The laws of logs, for every interleaving. The order of the clock readings they
   need is not assumed here but follows from the clock of the run.
   */
  lemma RunTimestamps(actions: seq<Action>, t: TaskId, x: ShardId)
    requires Feasible(actions) && t in Run(actions).db.tasks && IsShardOf(Run(actions).db, x, t)
    requires var db := Run(actions).db; db.tasks[t].status.Succeeded? || (db.tasks[t].status.Failed? && !AllQueued(db, t))
    ensures var T, s := Run(actions).db.tasks[t], Run(actions).db.shards[x];
      && T.startedAt.Some? && s.startedAt.Some? && s.finishedAt.Some? && T.finishedAt.Some?
      && T.startedAt.value <= s.startedAt.value <= s.finishedAt.value <= T.finishedAt.value
  {
    Serializability(actions);
    TimestampOrder(Run(actions).log, t, x);
  }

  /** Leases are conserved, exclusive, and every task and shard ends at most once, in every interleaving. */
  lemma RunLeases(actions: seq<Action>, t: TaskId, x: ShardId)
    requires Feasible(actions)
    ensures var log, db := Run(actions).log, Run(actions).db;
      && Legal(log)
      && LeaseCount(log, t) == RollbackCount(log, t) + |HeldShards(db, t)| + EndCount(log, t)
      && TerminalCount(log, x) == (if x in db.shards && db.shards[x].status.Terminal() then 1 else 0)
      && CloseCount(log, t) == if t in db.tasks && db.tasks[t].status.Terminal() then 1 else 0
  {
    Serializability(actions);
    var log := Run(actions).log;
    LeaseConservation(log, t);
    TerminalOnce(log, x);
    ClosedOnce(log, t);
  }

  lemma RunExclusive(actions: seq<Action>, i: nat, j: nat, x: ShardId)
    requires Feasible(actions) && i < j < |Run(actions).log|
    requires var log := Run(actions).log; log[i].Lease? && log[i].shard == x && log[j].Lease? && log[j].shard == x
    ensures RolledBackBetween(Run(actions).log, i, j, x)
  {
    Serializability(actions);
    ExclusiveLeases(Run(actions).log, i, j, x);
  }

  lemma KnowsItsPlace(actions: seq<Action>, pid: Pid)
    requires Feasible(actions) && pid in Run(actions).procs
    ensures ProcOk(Run(actions).db, Run(actions).now, Run(actions).ids, Run(actions).procs[pid])
  {
    Serializability(actions);
  }

  /** The QUEUED to WAITING_FOR_AGENTS update is never even attempted. */
  lemma NeverDemotes(actions: seq<Action>, pid: Pid)
    requires Feasible(actions) && pid in Run(actions).procs
    ensures !Run(actions).procs[pid].prog.RollbackTask?
  {
    KnowsItsPlace(actions, pid);
  }

  /******* Locks *******/

  lemma OneTaskLock(db: Tables, now: Time, ids: map<AgentId, Identity>, p: Proc)
    requires ProcOk(db, now, ids, p)
    ensures |p.txn.taskLocks| <= 1
  {
  }

  lemma OrderedLocks(db: Tables, now: Time, ids: map<AgentId, Identity>, p: Proc)
    requires ProcOk(db, now, ids, p)
    ensures WantsTask(db, p).Some? && WantsTask(db, p).value !in p.txn.taskLocks ==> p.txn.taskLocks == {} && p.txn.shardLocks == {}
  {
    ViewOfWrites(db, p.txn);
  }

  /** A process holds at most one task lock, and takes it before any shard lock. */
  lemma LockOrder(actions: seq<Action>, pid: Pid)
    requires Feasible(actions) && pid in Run(actions).procs
    ensures var db, p := Run(actions).db, Run(actions).procs[pid];
      && |p.txn.taskLocks| <= 1
      && (WantsTask(db, p).Some? && WantsTask(db, p).value !in p.txn.taskLocks ==> p.txn.taskLocks == {} && p.txn.shardLocks == {})
  {
    KnowsItsPlace(actions, pid);
    OneTaskLock(Run(actions).db, Run(actions).now, Run(actions).ids, Run(actions).procs[pid]);
    OrderedLocks(Run(actions).db, Run(actions).now, Run(actions).ids, Run(actions).procs[pid]);
  }

  /** `a` cannot run its next statement because `b` holds the row lock it needs. */
  ghost predicate WaitsFor(sys: Sys, a: Pid, b: Pid) {
    && a in sys.procs && b in sys.procs && a != b
    && var p, q := sys.procs[a], sys.procs[b];
    || (WantsTask(sys.db, p).Some? && WantsTask(sys.db, p).value in q.txn.taskLocks)
    || (exists pick :: WantsShard(sys.db, p, pick).Some? && WantsShard(sys.db, p, pick).value in q.txn.shardLocks)
  }

  /** 2: holds no lock. 1: holds locks and may still have to wait. 0: never has to wait. */
  function Depth(p: Proc): nat {
    if p.txn.taskLocks == {} && p.txn.shardLocks == {} then 2
    else if p.prog.MoveShard? || p.prog.CancelShards? then 1
    else 0
  }

  /** Every locked shard belongs to a locked task, or the holder is one commit away from letting it go. */
  ghost predicate ShardsUnderTask(db: Tables, p: Proc) {
    forall x :: x in p.txn.shardLocks ==> x in db.shards && (db.shards[x].task in p.txn.taskLocks || Depth(p) == 0)
  }

  lemma HoldersOrdered(db: Tables, now: Time, ids: map<AgentId, Identity>, p: Proc)
    requires ProcOk(db, now, ids, p)
    ensures ShardsUnderTask(db, p)
  {
    if p.prog.CancelShards? {
      forall y | y in p.txn.shardLocks ensures y in db.shards && db.shards[y].task in p.txn.taskLocks {
        assert OpenShard(db, p.prog.t, y);
      }
    }
  }

  /** A process that holds locks and waits, waits for a shard of the task it has locked. */
  lemma WaitersOrdered(db: Tables, now: Time, ids: map<AgentId, Identity>, p: Proc, pick: ShardId)
    requires ProcOk(db, now, ids, p) && Depth(p) < 2
    ensures WantsTask(db, p).Some? ==> WantsTask(db, p).value in p.txn.taskLocks
    ensures WantsShard(db, p, pick).Some? ==>
      var x := WantsShard(db, p, pick).value;
      x in p.txn.shardLocks || (x in db.shards && db.shards[x].task in p.txn.taskLocks && (Depth(p) == 1 || p.prog.LeaseCas?))
  {
    ViewOfWrites(db, p.txn);
    if p.prog.CancelShards? && pick in p.prog.todo { assert OpenShard(db, p.prog.t, pick); }
  }

  /** Shard locks outside a task lock exist only once the task has left WAITING_FOR_AGENTS. */
  lemma LockedPastWaiting(db: Tables, now: Time, ids: map<AgentId, Identity>, p: Proc, x: ShardId)
    requires ProcOk(db, now, ids, p) && x in p.txn.shardLocks && PairInv(db, x)
    ensures db.shards[x].task in p.txn.taskLocks || db.tasks[db.shards[x].task].status.Rank() >= 2
  {
    if p.prog.CancelShards? { assert OpenShard(db, p.prog.t, x); }
  }

  /** Nobody else holds the shard of a lease whose promotion took effect. */
  lemma PromotedFree(sys: Sys, pid: Pid)
    requires Core(sys) && JointInv(sys.db) && pid in sys.procs && sys.procs[pid].prog.LeaseCas? && sys.procs[pid].prog.promoted
    ensures ShardFree(sys.procs, pid, sys.procs[pid].prog.s)
  {
    var p := sys.procs[pid];
    var s := p.prog.s;
    assert ProcOk(sys.db, sys.now, sys.ids, p);
    assert PairInv(sys.db, s);
    forall q | q in sys.procs && q != pid ensures s !in sys.procs[q].txn.shardLocks {
      if s in sys.procs[q].txn.shardLocks {
        LockedPastWaiting(sys.db, sys.now, sys.ids, sys.procs[q], s);
      }
    }
  }

  /**
   Lease atomicity: when the promotion really updated the task row, the shard
   compare-and-set of that try can run at once and succeeds.
   */
  lemma LeaseAtomicity(actions: seq<Action>, pid: Pid, luck: Luck)
    requires Feasible(actions) && pid in Run(actions).procs
    requires Run(actions).procs[pid].prog.LeaseCas? && Run(actions).procs[pid].prog.promoted
    ensures var sys := Run(actions); var p := sys.procs[pid];
      && Can(sys, Statement(pid, luck))
      && After(sys.db, sys.now, p, luck).Continue?
      && After(sys.db, sys.now, p, luck).proc.prog.Commit?
      && After(sys.db, sys.now, p, luck).proc.prog.event == Some(Lease(p.prog.s, p.prog.q.agent, p.prog.q.tenant, p.prog.q.backend))
  {
    var sys := Run(actions);
    Serializability(actions);
    CommittedStates(actions);
    PromotedFree(sys, pid);
    PromotedRuns(sys.db, sys.now, sys.ids, sys.procs, pid, luck);
  }

  lemma PromotedRuns(db: Tables, now: Time, ids: map<AgentId, Identity>, procs: map<Pid, Proc>, pid: Pid, luck: Luck)
    requires pid in procs && procs[pid].prog.LeaseCas? && procs[pid].prog.promoted && ProcOk(db, now, ids, procs[pid]) && JointInv(db)
    ensures var p := procs[pid];
      && WantsTask(db, p).None? && WantsShard(db, p, luck.pick) == Some(p.prog.s)
      && After(db, now, p, luck).Continue? && After(db, now, p, luck).proc.prog.Commit?
      && After(db, now, p, luck).proc.prog.event == Some(Lease(p.prog.s, p.prog.q.agent, p.prog.q.tenant, p.prog.q.backend))
  {
    assert PairInv(db, procs[pid].prog.s);
    PromotedFindsQueued(db, now, ids, procs[pid]);
    ViewOfWrites(db, procs[pid].txn);
  }

  /******* No deadlock *******/

  /** Waiting always goes to a process strictly closer to its commit. */
  lemma WaitingDescends(sys: Sys, a: Pid, b: Pid)
    requires Core(sys) && JointInv(sys.db) && WaitsFor(sys, a, b)
    ensures Depth(sys.procs[a]) > Depth(sys.procs[b])
  {
    var p, q := sys.procs[a], sys.procs[b];
    if Depth(p) < 2 {
      if WantsTask(sys.db, p).Some? && WantsTask(sys.db, p).value in q.txn.taskLocks {
        WaitersOrdered(sys.db, sys.now, sys.ids, p, 0);
        assert false;
      }
      var pick :| WantsShard(sys.db, p, pick).Some? && WantsShard(sys.db, p, pick).value in q.txn.shardLocks;
      ShardWaitDescends(sys, a, b, pick);
    }
  }

  lemma ShardWaitDescends(sys: Sys, a: Pid, b: Pid, pick: ShardId)
    requires Core(sys) && JointInv(sys.db) && a in sys.procs && b in sys.procs && a != b && Depth(sys.procs[a]) < 2
    requires WantsShard(sys.db, sys.procs[a], pick).Some?
    requires WantsShard(sys.db, sys.procs[a], pick).value in sys.procs[b].txn.shardLocks
    ensures Depth(sys.procs[a]) == 1 && Depth(sys.procs[b]) == 0
  {
    var p, q := sys.procs[a], sys.procs[b];
    WaitersOrdered(sys.db, sys.now, sys.ids, p, pick);
    HoldersOrdered(sys.db, sys.now, sys.ids, q);
    if p.prog.LeaseCas? && p.prog.promoted {
      PromotedFree(sys, a);
    }
  }

  lemma {:induction false} ChainDescends(sys: Sys, ring: seq<Pid>, n: nat)
    requires Core(sys) && JointInv(sys.db) && n < |ring|
    requires forall i :: 0 <= i < n ==> WaitsFor(sys, ring[i], ring[i + 1])
    requires ring[0] in sys.procs
    ensures ring[n] in sys.procs && Depth(sys.procs[ring[n]]) + n <= Depth(sys.procs[ring[0]])
  {
    if n > 0 {
      ChainDescends(sys, ring, n - 1);
      assert WaitsFor(sys, ring[n - 1], ring[n - 1 + 1]);
      WaitingDescends(sys, ring[n - 1], ring[n]);
    }
  }

  /** No reachable state has a cycle of processes waiting for each other. */
  lemma NoDeadlock(actions: seq<Action>, ring: seq<Pid>)
    requires Feasible(actions) && |ring| > 0
    requires forall i :: 0 <= i < |ring| - 1 ==> WaitsFor(Run(actions), ring[i], ring[i + 1])
    ensures !WaitsFor(Run(actions), ring[|ring| - 1], ring[0])
  {
    var sys := Run(actions);
    Serializability(actions);
    CommittedStates(actions);
    if WaitsFor(sys, ring[|ring| - 1], ring[0]) {
      ChainDescends(sys, ring, |ring| - 1);
      WaitingDescends(sys, ring[|ring| - 1], ring[0]);
    }
  }

  /******* The unlocked shard read of a report *******/

  predicate IsDuplicate(r: Report, row: Shard) {
    r.ask.AskEnd? && r.ask.outcome.Success? && row.status.Succeeded? && row.outputKey != ""
  }

  /** What the report does at the lock if it goes by this row of its shard. */
  ghost function LockedWith(sys: Sys, pid: Pid, row: Shard): Result
    requires pid in sys.procs && sys.procs[pid].prog.LockTask?
  {
    AfterLock(sys.db, WithLocks(sys.db, sys.procs[pid], 0), sys.procs[pid].prog.r, row)
  }

  /**
   The shard is read before the task lock. Reading it again under the lock gives
   the very same process, or the shard's success was recorded in the meantime;
   then the second reading ends in a commit that writes nothing.
   */
  lemma StaleReadStep(actions: seq<Action>, pid: Pid)
    requires Feasible(actions) && pid in Run(actions).procs && Run(actions).procs[pid].prog.LockTask?
    ensures var sys := Run(actions); var p := sys.procs[pid]; var r := p.prog.r;
      && r.shard in sys.db.shards
      && var current := sys.db.shards[r.shard];
      && current.task == p.prog.stale.task
      && (|| LockedWith(sys, pid, p.prog.stale) == LockedWith(sys, pid, current)
          || (&& IsDuplicate(r, current)
              && LockedWith(sys, pid, current) == Continue(Proc(WithLocks(sys.db, p, 0), Commit(None, None, None)))
              && var res := LockedWith(sys, pid, p.prog.stale); (res.Quit? || (res.proc.prog.MoveShard? && res.proc.prog.r == r))))
  {
    KnowsItsPlace(actions, pid);
    CommittedStates(actions);
    var sys := Run(actions);
    assert sys.db.shards[sys.procs[pid].prog.r.shard].task in sys.db.tasks;
  }

  /** A report about a shard whose success is recorded cannot move it, at any later moment of the run. */
  lemma DuplicateNeverMoves(actions: seq<Action>, k: nat, pid: Pid, luck: Luck)
    requires Feasible(actions) && k <= |actions| && Feasible(actions[..k])
    requires pid in Run(actions).procs && Run(actions).procs[pid].prog.MoveShard?
    requires var r := Run(actions).procs[pid].prog.r;
      r.shard in Run(actions[..k]).db.shards && IsDuplicate(r, Run(actions[..k]).db.shards[r.shard])
    ensures var sys := Run(actions); After(sys.db, sys.now, sys.procs[pid], luck).Quit?
  {
    var sys := Run(actions);
    var p := sys.procs[pid];
    ShardNeverGoesBack(actions, k, p.prog.r.shard);
    KnowsItsPlace(actions, pid);
    DuplicateQuits(sys.db, sys.now, sys.ids, p, luck);
  }

  lemma DuplicateQuits(db: Tables, now: Time, ids: map<AgentId, Identity>, p: Proc, luck: Luck)
    requires p.prog.MoveShard? && ProcOk(db, now, ids, p)
    requires p.prog.r.shard in db.shards && IsDuplicate(p.prog.r, db.shards[p.prog.r.shard])
    ensures After(db, now, p, luck).Quit?
  {
    ViewOfWrites(db, p.txn);
  }

  /**
   The stale read is harmless: the report leaves the tables as if it had read the
   shard again under the lock. Let the process be at its task lock after the first
   `k` actions. Either both readings make it the same process, or both leave the
   tables alone: the second reading commits nothing, and the first one gives up, at
   once or at its shard update, in whichever later state that update runs.
   */
  lemma StaleReadHarmless(actions: seq<Action>, k: nat, pid: Pid, luck: Luck)
    requires Feasible(actions) && k <= |actions| && Feasible(actions[..k])
    requires pid in Run(actions[..k]).procs && Run(actions[..k]).procs[pid].prog.LockTask?
    ensures var before := Run(actions[..k]); var r, stale := before.procs[pid].prog.r, before.procs[pid].prog.stale;
      && r.shard in before.db.shards
      && (|| LockedWith(before, pid, stale) == LockedWith(before, pid, before.db.shards[r.shard])
          || (&& LockedWith(before, pid, before.db.shards[r.shard]).Continue?
              && LockedWith(before, pid, before.db.shards[r.shard]).proc.prog == Commit(None, None, None)
              && var res := LockedWith(before, pid, stale);
              && (res.Continue? ==> res.proc.prog.MoveShard? && res.proc.prog.r == r)
              && var sys := Run(actions);
              (pid in sys.procs && sys.procs[pid].prog.MoveShard? && sys.procs[pid].prog.r == r ==>
                After(sys.db, sys.now, sys.procs[pid], luck).Quit?)))
  {
    StaleReadStep(actions[..k], pid);
    var before, sys := Run(actions[..k]), Run(actions);
    var r := before.procs[pid].prog.r;
    if IsDuplicate(r, before.db.shards[r.shard]) && pid in sys.procs && sys.procs[pid].prog.MoveShard? && sys.procs[pid].prog.r == r {
      DuplicateNeverMoves(actions, k, pid, luck);
    }
  }

  /******* Lease tries *******/

  /** A lease past its select. */
  predicate Tries(prog: Prog) {
    prog.LeaseLoad? || prog.LeasePromote? || prog.LeaseCas?
  }

  /** The k-th action of the run is the select of this try, and `db` the committed tables it read. */
  ghost predicate SelectedAt(actions: seq<Action>, k: nat, pid: Pid, q: LeaseCall, tries: nat, db: Tables) {
    && k < |actions| && actions[k].Statement? && actions[k].pid == pid
    && Feasible(actions[..k]) && pid in Run(actions[..k]).procs
    && Run(actions[..k]).procs[pid].prog == LeaseSelect(q, tries) && Run(actions[..k]).db == db
  }

  /** A process past its select was there before the action, at the same try, or the action was its select. */
  lemma TryStep(sys: Sys, a: Action, pid: Pid)
    requires Can(sys, a) && pid in Next(sys, a).procs && Tries(Next(sys, a).procs[pid].prog)
    requires a.CommitNow? ==> AfterCommit(sys.procs[a.pid].prog).Some? ==> !Tries(AfterCommit(sys.procs[a.pid].prog).value)
    ensures pid in sys.procs
    ensures var prog, prog' := sys.procs[pid].prog, Next(sys, a).procs[pid].prog;
      || (Tries(prog) && prog.q == prog'.q && prog.tries == prog'.tries && prog.s == prog'.s && prog.seenDb == prog'.seenDb)
      || (a.Statement? && a.pid == pid && prog == LeaseSelect(prog'.q, prog'.tries) && prog'.seenDb == sys.db)
  {
    if a.Statement? && a.pid == pid { TryStatement(sys.db, sys.now, sys.procs[pid], a.luck); }
  }

  /** Only a lease gets past a select. */
  lemma OnlyLeasesTry(db: Tables, now: Time, p: Proc, luck: Luck)
    requires After(db, now, p, luck).Continue? && Tries(After(db, now, p, luck).proc.prog)
    ensures p.prog.LeaseSelect? || p.prog.LeaseLoad? || p.prog.LeasePromote?
  {
  }

  lemma TryStatement(db: Tables, now: Time, p: Proc, luck: Luck)
    requires After(db, now, p, luck).Continue? && Tries(After(db, now, p, luck).proc.prog)
    ensures var prog, prog' := p.prog, After(db, now, p, luck).proc.prog;
      || (Tries(prog) && prog.q == prog'.q && prog.tries == prog'.tries && prog.s == prog'.s && prog.seenDb == prog'.seenDb)
      || (prog == LeaseSelect(prog'.q, prog'.tries) && prog'.seenDb == db)
  {
    OnlyLeasesTry(db, now, p, luck);
  }

  lemma NoTryAfterCommit(db: Tables, now: Time, ids: map<AgentId, Identity>, p: Proc)
    requires ProcOk(db, now, ids, p) && p.prog.Commit?
    ensures AfterCommit(p.prog).Some? ==> !Tries(AfterCommit(p.prog).value)
  {
  }

  /** What a lease remembers is a committed state of the run: the one its select read. */
  lemma {:induction false} TryHasSelect(actions: seq<Action>, pid: Pid) returns (k: nat)
    requires Feasible(actions) && pid in Run(actions).procs && Tries(Run(actions).procs[pid].prog)
    ensures var prog := Run(actions).procs[pid].prog; SelectedAt(actions, k, pid, prog.q, prog.tries, prog.seenDb)
  {
    var f, a := Front(actions), Last(actions);
    Serializability(f);
    if a.CommitNow? { NoTryAfterCommit(Run(f).db, Run(f).now, Run(f).ids, Run(f).procs[a.pid]); }
    TryStep(Run(f), a, pid);
    if Tries(Run(f).procs[pid].prog) {
      k := TryHasSelect(f, pid);
      assert f[..k] == actions[..k] && f[k] == actions[k];
    } else {
      k := |f|;
      assert actions[..k] == f && actions[k] == a;
    }
  }

  /**
   A try that fails wrote nothing itself, and saw a change that was committed
   between its select, the k-th action, and now: to the shard or to its task.
   */
  lemma LostTry(actions: seq<Action>, pid: Pid, luck: Luck)
    requires Feasible(actions) && pid in Run(actions).procs
    requires var p := Run(actions).procs[pid]; p.prog.LeaseCas? || p.prog.LeaseLoad?
    requires var sys := Run(actions); var res := After(sys.db, sys.now, sys.procs[pid], luck); res.Quit? || res.proc.prog.LeaseSelect?
    ensures var sys := Run(actions); var p := sys.procs[pid];
      && p.txn == IDLE
      && exists k: nat :: SelectedAt(actions, k, pid, p.prog.q, p.prog.tries, p.prog.seenDb) &&
           ChangedSince(Run(actions[..k]).db, sys.db, p.prog.s)
  {
    KnowsItsPlace(actions, pid);
    CommittedStates(actions);
    var sys := Run(actions);
    LostTryAt(sys.db, sys.now, sys.ids, sys.procs[pid], luck);
    var k := TryHasSelect(actions, pid);
  }

  /** The shard's row or its task's row is not what it was. */
  ghost predicate ChangedSince(db: Tables, db': Tables, s: ShardId) {
    && s in db.shards && s in db'.shards
    && var t := db.shards[s].task;
    && t in db.tasks && t in db'.tasks && (db'.shards[s] != db.shards[s] || db'.tasks[t] != db.tasks[t])
  }

  lemma LostTryAt(db: Tables, now: Time, ids: map<AgentId, Identity>, p: Proc, luck: Luck)
    requires (p.prog.LeaseCas? || p.prog.LeaseLoad?) && ProcOk(db, now, ids, p) && JointInv(db)
    requires var res := After(db, now, p, luck); res.Quit? || res.proc.prog.LeaseSelect?
    ensures p.txn == IDLE && p.prog.s in p.prog.seenDb.shards && p.prog.s in db.shards
    ensures var t := p.prog.seenDb.shards[p.prog.s].task;
      && t in p.prog.seenDb.tasks && t in db.tasks
      && (db.shards[p.prog.s] != p.prog.seenDb.shards[p.prog.s] || db.tasks[t] != p.prog.seenDb.tasks[t])
  {
    assert PairInv(db, p.prog.s);
    ViewOfWrites(db, p.txn);
  }

  /** A lease finds nothing exactly when every QUEUED shard of its tenant and backend is under a PENDING or closed task. */
  lemma NotFoundMeansNone(actions: seq<Action>, pid: Pid, luck: Luck)
    requires Feasible(actions) && Can(Run(actions), Statement(pid, luck)) && Run(actions).procs[pid].prog.LeaseSelect?
    ensures var sys := Run(actions); var q := sys.procs[pid].prog.q;
      After(sys.db, sys.now, sys.procs[pid], luck).Quit? <==> AllClosed(sys.db, q.tenant, q.backend)
  {
    KnowsItsPlace(actions, pid);
    var sys := Run(actions);
    SelectQuits(sys.db, sys.now, sys.procs[pid], luck);
  }

  lemma SelectQuits(db: Tables, now: Time, p: Proc, luck: Luck)
    requires p.prog.LeaseSelect? && p.txn == IDLE && Choice(db, p, luck)
    ensures After(db, now, p, luck).Quit? <==> AllClosed(db, p.prog.q.tenant, p.prog.q.backend)
  {
    var q := p.prog.q;
    ViewOfWrites(db, p.txn);
    NoneOpen(db, q.tenant, q.backend);
    forall x ensures Eligible(db, q, x) <==> Open(db, q.tenant, q.backend, x) { EligibleMeans(db, q, x); }
  }

  /**
   The shard a lease goes for was first among the shards eligible in the committed
   tables at the select of that try, the k-th action of the run.
   */
  lemma LeaseOrder(actions: seq<Action>, pid: Pid)
    requires Feasible(actions) && pid in Run(actions).procs && Tries(Run(actions).procs[pid].prog)
    ensures var prog := Run(actions).procs[pid].prog;
      exists k: nat :: SelectedAt(actions, k, pid, prog.q, prog.tries, prog.seenDb) &&
        FirstOpen(Run(actions[..k]).db, prog.q.tenant, prog.q.backend, prog.s)
  {
    KnowsItsPlace(actions, pid);
    var k := TryHasSelect(actions, pid);
    var prog := Run(actions).procs[pid].prog;
    IsNextMeans(prog.seenDb, prog.q, prog.s);
  }

  /** And it is the shard that a lease commits: the lease in the log took the first of the queue at its select. */
  lemma LeasedInOrder(actions: seq<Action>, pid: Pid, luck: Luck)
    requires Feasible(actions) && pid in Run(actions).procs && Run(actions).procs[pid].prog.LeaseCas?
    requires var sys := Run(actions); After(sys.db, sys.now, sys.procs[pid], luck).Continue?
    requires var sys := Run(actions); After(sys.db, sys.now, sys.procs[pid], luck).proc.prog.Commit?
    ensures var sys := Run(actions); var q, event := sys.procs[pid].prog.q, After(sys.db, sys.now, sys.procs[pid], luck).proc.prog.event;
      && event.Some? && event.value == Lease(sys.procs[pid].prog.s, q.agent, q.tenant, q.backend)
      && exists k: nat :: SelectedAt(actions, k, pid, q, sys.procs[pid].prog.tries, sys.procs[pid].prog.seenDb) &&
           FirstOpen(Run(actions[..k]).db, q.tenant, q.backend, event.value.shard)
  {
    LeaseOrder(actions, pid);
  }

  /******* Progress *******/

  predicate LatestBlame(db: Tables, t: TaskId, xs: set<ShardId>, x: ShardId) {
    Blames(db, x, t) && forall y :: y in xs && Blames(db, y, t) ==> NotAfter(db.shards[y].finishedAt, db.shards[x].finishedAt)
  }

  lemma {:induction false} LatestExists(db: Tables, t: TaskId, xs: set<ShardId>)
    requires exists y :: y in xs && Blames(db, y, t)
    ensures exists x :: x in xs && LatestBlame(db, t, xs, x)
  {
    var y :| y in xs && Blames(db, y, t);
    var rest := xs - {y};
    if z :| z in rest && Blames(db, z, t) {
      LatestExists(db, t, rest);
      var x :| x in rest && LatestBlame(db, t, rest, x);
      LaterOfTwo(db, t, xs, x, y);
      var latest := if NotAfter(db.shards[y].finishedAt, db.shards[x].finishedAt) then x else y;
      assert latest in xs && LatestBlame(db, t, xs, latest);
    } else {
      assert LatestBlame(db, t, xs, y);
    }
  }

  /** One more blaming shard is the latest, or the latest so far still is. */
  lemma LaterOfTwo(db: Tables, t: TaskId, xs: set<ShardId>, x: ShardId, y: ShardId)
    requires y in xs && x in xs && Blames(db, y, t) && LatestBlame(db, t, xs - {y}, x)
    ensures LatestBlame(db, t, xs, if NotAfter(db.shards[y].finishedAt, db.shards[x].finishedAt) then x else y)
  {
    var latest := if NotAfter(db.shards[y].finishedAt, db.shards[x].finishedAt) then x else y;
    forall w | w in xs && Blames(db, w, t) ensures NotAfter(db.shards[w].finishedAt, db.shards[latest].finishedAt) {
      if w != y { assert w in xs - {y}; }
    }
  }

  lemma NoteExists(db: Tables, t: TaskId, fallback: string) returns (note: string)
    ensures Resolved(db, t, fallback, note)
  {
    if y :| Blames(db, y, t) {
      var xs := db.shards.Keys;
      assert y in xs;
      LatestExists(db, t, xs);
      var x :| x in xs && LatestBlame(db, t, xs, x);
      note := db.shards[x].lastError;
    } else {
      note := if fallback != "" then fallback else DEFAULT_FAILURE;
    }
  }

  lemma ChoiceExists(db: Tables, now: Time, ids: map<AgentId, Identity>, p: Proc) returns (luck: Luck)
    requires ProcOk(db, now, ids, p)
    ensures Choice(db, p, luck)
  {
    luck := Luck(0, "", true, true);
    var v := View(db, p.txn);
    match p.prog
    case LeaseSelect(q, _) =>
      NextExists(v, q);
      if x :| IsNext(v, q, x) { luck := Luck(x, "", true, true); }
    case CancelShards(_, _, _, _, _, todo) =>
      if x :| x in todo { luck := Luck(x, "", true, true); }
    case Resolve(r, t, _, _) =>
      var note := NoteExists(v, t, Fallback(r.ask.outcome));
      luck := Luck(0, note, true, true);
    case _ =>
  }

  lemma Frontrunner(sys: Sys, a: Pid) returns (b: Pid)
    requires Core(sys) && JointInv(sys.db) && a in sys.procs
    ensures b in sys.procs && forall c :: !WaitsFor(sys, b, c)
    decreases Depth(sys.procs[a])
  {
    if c :| WaitsFor(sys, a, c) {
      WaitingDescends(sys, a, c);
      b := Frontrunner(sys, c);
    } else {
      b := a;
    }
  }

  /** As long as any call is under way, some call can take its next step. */
  lemma SomeoneMoves(actions: seq<Action>)
    requires Feasible(actions) && Run(actions).procs != map[]
    ensures exists a: Action :: (a.Statement? || a.CommitNow? || a.Send?) && Can(Run(actions), a)
  {
    var sys := Run(actions);
    Serializability(actions);
    CommittedStates(actions);
    var any :| any in sys.procs;
    var pid := Frontrunner(sys, any);
    var p := sys.procs[pid];
    if p.prog.Commit? {
      assert Can(sys, CommitNow(pid));
    } else if p.prog.Dispatch? {
      assert Can(sys, Send(pid));
    } else {
      var luck := ChoiceExists(sys.db, sys.now, sys.ids, p);
      NotWaiting(sys, pid, luck.pick);
      assert Can(sys, Statement(pid, luck));
    }
  }

  lemma NotWaiting(sys: Sys, pid: Pid, pick: ShardId)
    requires pid in sys.procs && forall c :: !WaitsFor(sys, pid, c)
    ensures Unblocked(sys, pid, pick)
  {
    var p := sys.procs[pid];
    if WantsTask(sys.db, p).Some? {
      forall q | q in sys.procs && q != pid ensures WantsTask(sys.db, p).value !in sys.procs[q].txn.taskLocks {
        assert !WaitsFor(sys, pid, q);
      }
    }
    if WantsShard(sys.db, p, pick).Some? {
      forall q | q in sys.procs && q != pid ensures WantsShard(sys.db, p, pick).value !in sys.procs[q].txn.shardLocks {
        assert !WaitsFor(sys, pid, q);
      }
    }
  }
}
