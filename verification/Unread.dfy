/**
 A cancelled task's payload without its finish time: how the refresh read after
 the commit fails, and a whole run in which it does.
 */
module Unread {
  import opened Rows
  import opened Ledger
  import opened Interleaving
  import opened Assertions
  import opened Statements
  import opened Serializable

  lemma Extend(actions: seq<Action>, a: Action)
    requires Feasible(actions) && Can(Run(actions), a)
    ensures Feasible(actions + [a]) && Run(actions + [a]) == Next(Run(actions), a)
  {
    assert Front(actions + [a]) == actions && Last(actions + [a]) == a;
  }

  /** From any run: a failed refresh read leads to a payload whose finish time is unset, though the row has one. */
  lemma UnreadRefresh(actions: seq<Action>, pid: Pid, luck: Luck)
    requires Feasible(actions) && pid in Run(actions).procs && Run(actions).procs[pid].prog.Refresh? && !luck.read
    ensures var more := actions + [Statement(pid, luck)] + [Send(pid)]; var payload := Run(actions).procs[pid].prog.payload;
      && Feasible(more) && Run(more).db == Run(actions).db && Run(more).sent == Run(actions).sent + [Sent(payload, false)]
      && payload.finishedAt.None? && payload.task in Run(more).db.tasks && Run(more).db.tasks[payload.task].finishedAt.Some?
  {
    var sys := Run(actions);
    Serializability(actions);
    JointInvariant(sys.log);
    var p := sys.procs[pid];
    assert ProcOk(sys.db, sys.now, sys.ids, p);
    assert FinishFits(sys.db.tasks[p.prog.t]);
    UnreadSteps(actions, pid, luck);
  }

  lemma UnreadSteps(actions: seq<Action>, pid: Pid, luck: Luck)
    requires Feasible(actions) && pid in Run(actions).procs && Run(actions).procs[pid].prog.Refresh? && !luck.read
    ensures var more := actions + [Statement(pid, luck)] + [Send(pid)];
      && Feasible(more) && Run(more).db == Run(actions).db
      && Run(more).sent == Run(actions).sent + [Sent(Run(actions).procs[pid].prog.payload, false)]
  {
    Extend(actions, Statement(pid, luck));
    Extend(actions + [Statement(pid, luck)], Send(pid));
  }

  /******* A whole run *******/

  /** The only process takes a statement. */
  lemma Alone(actions: seq<Action>, luck: Luck, p: Proc, p': Proc)
    requires Feasible(actions) && Run(actions).procs == map[0 := p] && !p.prog.Commit? && !p.prog.Dispatch?
    requires Choice(Run(actions).db, p, luck) && After(Run(actions).db, Run(actions).now, p, luck) == Continue(p')
    ensures Feasible(actions + [Statement(0, luck)])
    ensures Run(actions + [Statement(0, luck)]) == Run(actions).(procs := map[0 := p'])
  {
    Extend(actions, Statement(0, luck));
  }

  const OWNER := Tenant("backend", 1)
  const OPEN := Task(0, TaskStatus.Pending, "http://hook", 1, 0, None, None, "")
  const SHARD := NewShard(0, "a.sh")
  const STORE := Tables(map[0 := OWNER], map[0 := OPEN], map[0 := SHARD])
  const LUCK := Luck(0, "", true, false)
  const PAYLOAD := Payload(0, 0, TaskStatus.Cancelled, "", None, false, "http://hook")

  /** A tenant is added and submits a task with a hook and one script. */
  lemma Submitted() returns (actions: seq<Action>)
    ensures Feasible(actions) && Run(actions).db == STORE && Run(actions).procs == map[]
    ensures Run(actions).now == 0 && Run(actions).sent == []
  {
    var e1, e2 := AddTenant(0, OWNER), Submit(0, 0, "http://hook", 0, map[0 := "a.sh"]);
    var none: seq<Action> := [];
    assert Feasible(none) && Run(none) == Interleaving.START;
    Extend(none, Direct(e1));
    var one := none + [Direct(e1)];
    assert Run(one).db == Tables(map[0 := OWNER], map[], map[]);
    assert 0 in e2.scripts.Keys;
    Extend(one, Direct(e2));
    actions := one + [Direct(e2)];
    assert Run(actions).db.tasks == STORE.tasks;
    assert Run(actions).db.shards == STORE.shards;
  }

  const CANCELLED := CloseTask(OPEN, TaskStatus.Cancelled, "", 0)

  /** The cancel gets as far as its shards. */
  lemma Cancelled() returns (actions: seq<Action>)
    ensures Feasible(actions) && Run(actions).db == STORE && Run(actions).now == 0 && Run(actions).sent == []
    ensures Run(actions).procs == map[0 := Proc(Txn({0}, {}, map[0 := CANCELLED], map[]), CancelShards(0, 0, OPEN, 0, 0, {0}))]
  {
    actions := Submitted();
    Extend(actions, Spawn(0, CancelRead(0, 0)));
    actions := actions + [Spawn(0, CancelRead(0, 0))];
    var p0, p1 := Proc(IDLE, CancelRead(0, 0)), Proc(IDLE, CancelTask(0, 0, OPEN));
    ViewOfWrites(STORE, IDLE);
    Alone(actions, LUCK, p0, p1);
    actions := actions + [Statement(0, LUCK)];
    var x := Txn({0}, {}, map[0 := CANCELLED], map[]);
    var p2 := Proc(x, CancelScan(0, 0, OPEN, 0));
    Alone(actions, LUCK, p1, p2);
    actions := actions + [Statement(0, LUCK)];
    AfterScan(STORE, 0, p2, LUCK);
    assert OpenShards(STORE, 0) == {0};
    Alone(actions, LUCK, p2, Proc(x, CancelShards(0, 0, OPEN, 0, 0, {0})));
    actions := actions + [Statement(0, LUCK)];
  }

  /** The cancel is about to commit. */
  lemma Committing() returns (actions: seq<Action>, y: Txn)
    ensures Feasible(actions) && Run(actions).sent == []
    ensures Run(actions).procs == map[0 := Proc(y, Commit(Some(Cancel(0, 0, 0, 0)), None, Some(Refresh(0, PAYLOAD))))]
  {
    actions := Cancelled();
    var x := Txn({0}, {}, map[0 := CANCELLED], map[]);
    var p := Proc(x, CancelShards(0, 0, OPEN, 0, 0, {0}));
    y := PutShard(x.(shardLocks := {0}), 0, CancelRow(SHARD, 0));
    AfterOneCancel(STORE, 0, p, LUCK);
    var p3 := Proc(y, CancelShards(0, 0, OPEN, 0, 0, {}));
    assert p.prog.todo - {LUCK.pick} == {};
    Alone(actions, LUCK, p, p3);
    actions := actions + [Statement(0, LUCK)];
    AfterLastCancel(STORE, 0, p3, LUCK);
    var p4 := Proc(y, Commit(Some(Cancel(0, 0, 0, 0)), None, Some(Refresh(0, PAYLOAD))));
    Alone(actions, LUCK, p3, p4);
    actions := actions + [Statement(0, LUCK)];
  }

  /** A run at whose end the one dispatched payload lacks the finish time that the cancelled task's row has. */
  lemma UnsetFinishTime() returns (actions: seq<Action>)
    ensures Feasible(actions) && |Run(actions).sent| == 1
    ensures var sys := Run(actions); var p := sys.sent[0].payload;
      p.finishedAt.None? && p.task in sys.db.tasks && sys.db.tasks[p.task].finishedAt.Some?
  {
    var y;
    actions, y := Committing();
    Extend(actions, CommitNow(0));
    actions := actions + [CommitNow(0)];
    UnreadRefresh(actions, 0, LUCK);
    actions := actions + [Statement(0, LUCK)] + [Send(0)];
  }
}
