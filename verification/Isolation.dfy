/**
 Tenant isolation in the statement-level system: a shard leased since the server
 started is only ever held by an agent registered for the tenant and backend of
 its task.
 */
module Isolation {
  import opened Rows
  import opened Ledger
  import opened Interleaving
  import opened Assertions
  import opened Serializable

  /** If the shard is held, then by an agent registered where its task belongs. */
  ghost predicate AtHome(db: Tables, ids: map<AgentId, Identity>, x: ShardId) {
    && x in db.shards
    && var row := db.shards[x];
    row.status.Held() ==>
      row.agent.Some? && row.agent.value in ids && Owned(db, row.task, ids[row.agent.value].tenant, ids[row.agent.value].backend)
  }

  ghost predicate Isolated(sys: Sys) {
    forall x :: x in sys.recent ==> AtHome(sys.db, sys.ids, x)
  }

  /** No event but a lease gives a held shard another holder. */
  lemma HomeKept(db: Tables, e: Event, db': Tables, ids: map<AgentId, Identity>, x: ShardId)
    requires AtHome(db, ids, x) && Enabled(db, e) && RowsAfter(db, e, db')
    requires e.Lease? ==> x != e.shard
    ensures AtHome(db', ids, x)
  {
    var row := db.shards[x];
    assert db'.shards[x] == ShardAfter(db, e, x);
    if db'.shards[x].status.Held() {
      assert row.status.Held() && db'.shards[x].agent == row.agent;
      FixedColumns(db, e, row.task, x);
    }
  }

  lemma LeaseHome(db: Tables, now: Time, ids: map<AgentId, Identity>, p: Proc, db': Tables)
    requires ProcOk(db, now, ids, p) && p.prog.Commit? && p.prog.event.Some? && p.prog.event.value.Lease?
    requires Enabled(db, p.prog.event.value) && RowsAfter(db, p.prog.event.value, db')
    ensures AtHome(db', ids, p.prog.event.value.shard)
  {
    var e := p.prog.event.value;
    assert db'.shards[e.shard] == ShardAfter(db, e, e.shard);
    FixedColumns(db, e, db.shards[e.shard].task, e.shard);
  }

  lemma IsolatedCommit(sys: Sys, pid: Pid)
    requires Core(sys) && Isolated(sys) && pid in sys.procs && sys.procs[pid].prog.Commit? && sys.procs[pid].prog.event.Some?
    ensures Isolated(Committed(sys, pid))
  {
    var p := sys.procs[pid];
    var e := p.prog.event.value;
    JointInvariant(sys.log);
    CommitFacts(sys.procs, pid, sys.db, sys.now, sys.ids);
    ApplyRows(sys.db, e);
    IsolatedRows(sys, pid, Apply(sys.db, e));
  }

  lemma IsolatedRows(sys: Sys, pid: Pid, db': Tables)
    requires Isolated(sys) && pid in sys.procs && sys.procs[pid].prog.Commit? && sys.procs[pid].prog.event.Some?
    requires ProcOk(sys.db, sys.now, sys.ids, sys.procs[pid]) && View(sys.db, sys.procs[pid].txn) == db'
    requires Enabled(sys.db, sys.procs[pid].prog.event.value) && RowsAfter(sys.db, sys.procs[pid].prog.event.value, db')
    ensures Isolated(Committed(sys, pid))
  {
    var e := sys.procs[pid].prog.event.value;
    forall x | x in Committed(sys, pid).recent ensures AtHome(db', sys.ids, x) {
      if e.Lease? && x == e.shard { LeaseHome(sys.db, sys.now, sys.ids, sys.procs[pid], db'); }
      else { HomeKept(sys.db, e, db', sys.ids, x); }
    }
  }

  lemma IsolatedDirect(sys: Sys, e: Event)
    requires Isolated(sys) && Standalone(sys, e)
    ensures Isolated(sys.(db := Apply(sys.db, e), log := sys.log + [e]))
  {
    ApplyRows(sys.db, e);
    forall x | x in sys.recent ensures AtHome(Apply(sys.db, e), sys.ids, x) { HomeKept(sys.db, e, Apply(sys.db, e), sys.ids, x); }
  }

  lemma IsolatedStep(sys: Sys, a: Action)
    requires Core(sys) && Isolated(sys) && Can(sys, a)
    ensures Isolated(Next(sys, a))
  {
    match a
    case CommitNow(pid) => if sys.procs[pid].prog.event.Some? { IsolatedCommit(sys, pid); }
    case Direct(e) => IsolatedDirect(sys, e);
    case _ => IsolatedQuiet(sys, a);
  }

  /** Nothing else changes the tables, and registrations only add identities. */
  lemma IsolatedQuiet(sys: Sys, a: Action)
    requires Isolated(sys) && Can(sys, a) && !a.CommitNow? && !a.Direct?
    ensures Isolated(Next(sys, a))
  {
  }

  lemma {:induction false} IsolatedAlways(actions: seq<Action>)
    requires Feasible(actions)
    ensures Isolated(Run(actions))
  {
    if |actions| > 0 {
      Serializability(Front(actions));
      IsolatedAlways(Front(actions));
      IsolatedStep(Run(Front(actions)), Last(actions));
    }
  }

  /**
   Across any registrations, reconnects, leases and rollbacks: a QUEUED shard is
   unassigned, a LEASED or RUNNING one is assigned, and if it was leased during
   this server run its agent's registered tenant and backend are those of its task.
   */
  lemma TenantIsolation(actions: seq<Action>, x: ShardId)
    requires Feasible(actions) && x in Run(actions).db.shards
    ensures var sys := Run(actions); var row := sys.db.shards[x];
      && (row.status.Queued? ==> row.agent.None?)
      && (row.status.Held() ==> row.agent.Some?)
      && (row.status.Held() && x in sys.recent ==>
          && row.agent.value in sys.ids && row.task in sys.db.tasks
          && var tenant := sys.db.tasks[row.task].tenant;
          tenant in sys.db.tenants && sys.ids[row.agent.value] == Identity(tenant, sys.db.tenants[tenant].backend))
  {
    Serializability(actions);
    JointInvariant(Run(actions).log);
    IsolatedAlways(actions);
  }
}
