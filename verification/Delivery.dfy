/**
 Completion hooks in the statement-level system: who owes which payload, and
 what every dispatched payload says.
 */
module Delivery {
  import opened Rows
  import opened Ledger
  import opened LedgerLaws
  import opened Interleaving
  import opened Assertions
  import opened Statements
  import opened Serializable

  /******* The payloads processes still owe *******/

  function Owed(db: Tables, procs: map<Pid, Proc>): map<Pid, Payload> {
    map pid | pid in procs && Owes(db, procs[pid].prog).Some? :: Owes(db, procs[pid].prog).value
  }

  /** The outcomes told by the dispatched payloads. */
  function Reported(db: Tables, sent: seq<Sent>): seq<Payload> {
    seq(|sent|, i requires 0 <= i < |sent| => Told(db, sent[i].payload))
  }

  /** What was dispatched has the finish time its refresh allowed. */
  ghost predicate SentOk(db: Tables, sent: seq<Sent>) {
    forall i :: 0 <= i < |sent| ==> TimedAs(db, sent[i].payload, sent[i].reread)
  }

  /** Every hook is sent at most once; it is sent, owed by exactly one process, or lost in a restart. */
  ghost predicate Accounted(hooks: seq<Payload>, sent: seq<Payload>, lost: set<Payload>, owed: map<Pid, Payload>) {
    && OnePerTask(hooks) && OnePerTask(sent)
    && (forall p :: p in sent ==> p in hooks)
    && (forall pid :: pid in owed ==> owed[pid] in hooks && !HasHook(sent, owed[pid].task))
    && (forall a, b :: a in owed && b in owed && a != b ==> owed[a].task != owed[b].task)
    && (forall p :: p in hooks ==> p in sent || p in lost || p in owed.Values)
  }

  lemma HookAdded(hooks: seq<Payload>, sent: seq<Payload>, lost: set<Payload>, owed: map<Pid, Payload>, pid: Pid, p: Payload)
    requires Accounted(hooks, sent, lost, owed) && pid !in owed && OnePerTask(hooks + [p])
    ensures Accounted(hooks + [p], sent, lost, owed[pid := p])
  {
    var hooks' := hooks + [p];
    forall h | h in hooks ensures h.task != p.task {
      var i :| 0 <= i < |hooks| && hooks[i] == h;
      assert hooks'[i] == h && hooks'[|hooks|] == p;
    }
    assert owed[pid := p][pid] == p;
    forall h | h in hooks' ensures h in sent || h in lost || h in owed[pid := p].Values {
      if h in hooks && h in owed.Values {
        var b :| b in owed && owed[b] == h;
        assert owed[pid := p][b] == h;
      }
    }
  }

  lemma HookSent(hooks: seq<Payload>, sent: seq<Payload>, lost: set<Payload>, owed: map<Pid, Payload>, pid: Pid)
    requires Accounted(hooks, sent, lost, owed) && pid in owed
    ensures Accounted(hooks, sent + [owed[pid]], lost, owed - {pid})
  {
    var p, sent', owed' := owed[pid], sent + [owed[pid]], owed - {pid};
    OnePerTaskMore(sent, p);
    forall b | b in owed' ensures !HasHook(sent', owed'[b].task) {
      HasHookSplit(sent, Some(p), owed'[b].task);
    }
    forall h | h in hooks ensures h in sent' || h in lost || h in owed'.Values {
      if h in owed.Values && h != p {
        var b :| b in owed && owed[b] == h;
        assert b in owed' && owed'[b] == h;
      }
    }
  }

  lemma HooksLost(hooks: seq<Payload>, sent: seq<Payload>, lost: set<Payload>, owed: map<Pid, Payload>)
    requires Accounted(hooks, sent, lost, owed)
    ensures Accounted(hooks, sent, lost + owed.Values, map[])
  {
  }

  /******* What each action does to them *******/

  lemma StatementOwes(db: Tables, now: Time, p: Proc, luck: Luck)
    requires !p.prog.Commit? && !p.prog.Dispatch?
    ensures After(db, now, p, luck).Continue? && !p.prog.Refresh? ==> Owes(db, After(db, now, p, luck).proc.prog).None?
    ensures After(db, now, p, luck).Quit? ==> Owes(db, p.prog).None?
  {
  }

  lemma RefreshOwes(db: Tables, now: Time, ids: map<AgentId, Identity>, p: Proc, luck: Luck)
    requires p.prog.Refresh? && ProcOk(db, now, ids, p)
    ensures After(db, now, p, luck).Continue? && Owes(db, After(db, now, p, luck).proc.prog) == Owes(db, p.prog)
  {
    ViewOfWrites(db, p.txn);
  }

  lemma ToldStays(db: Tables, e: Event, db': Tables, p: Payload)
    requires Enabled(db, e) && RowsAfter(db, e, db') && (e.Start? || e.Finish? ==> PairInv(db, e.shard))
    requires p.task in db.tasks && db.tasks[p.task].status.Terminal()
    ensures p.task in db'.tasks && db'.tasks[p.task] == db.tasks[p.task] && Told(db', p) == Told(db, p)
  {
    TaskMoves(db, e, p.task);
  }

  lemma ReportedStays(db: Tables, e: Event, db': Tables, sent: seq<Sent>)
    requires Enabled(db, e) && RowsAfter(db, e, db') && (e.Start? || e.Finish? ==> PairInv(db, e.shard)) && SentOk(db, sent)
    ensures SentOk(db', sent) && Reported(db', sent) == Reported(db, sent)
  {
    forall i | 0 <= i < |sent|
      ensures TimedAs(db', sent[i].payload, sent[i].reread) && Told(db', sent[i].payload) == Told(db, sent[i].payload)
    {
      ToldStays(db, e, db', sent[i].payload);
    }
  }

  /** Whoever owes a payload owes it for a closed task. */
  lemma DebtorClosed(db: Tables, now: Time, ids: map<AgentId, Identity>, p: Proc)
    requires ProcOk(db, now, ids, p) && (p.prog.Refresh? || p.prog.Dispatch?)
    ensures p.prog.payload.task in db.tasks && db.tasks[p.prog.payload.task].status.Terminal()
  {
  }

  lemma OwesStays(db: Tables, prog: Prog, e: Event, db': Tables)
    requires Enabled(db, e) && RowsAfter(db, e, db') && (e.Start? || e.Finish? ==> PairInv(db, e.shard))
    requires prog.Refresh? || prog.Dispatch? ==> prog.payload.task in db.tasks && db.tasks[prog.payload.task].status.Terminal()
    ensures Owes(db', prog) == Owes(db, prog)
  {
    if prog.Refresh? || prog.Dispatch? { ToldStays(db, e, db', prog.payload); }
  }

  /** What a process owes once it has committed. */
  function OwesNext(db: Tables, hook: Option<Payload>, next: Option<Prog>): Option<Payload> {
    if hook.Some? then Some(Told(db, hook.value)) else if next.Some? then Owes(db, next.value) else None
  }

  lemma FinishOwes(db: Tables, x: Txn, e: Event, hook: Option<Payload>, db': Tables)
    requires e.Finish? && FinishOk(db, x, e.shard, e.outcome, e.at, e.closedAt, e.note, hook) && Addressed(db, e) && RowsAfter(db, e, db')
    ensures HookOf(db, e) == OwesNext(db', hook, None)
  {
    FinishEffect(db, x, e, hook);
    if hook.Some? { HookOk(db, x, e, hook, db'); }
  }

  lemma CancelOwes(db: Tables, x: Txn, e: Event, next: Option<Prog>, db': Tables)
    requires e.Cancel? && CancelOk(db, x, e.task, e.tenant, e.at, e.shardsAt, next) && Addressed(db, e) && RowsAfter(db, e, db')
    ensures HookOf(db, e) == OwesNext(db', None, next)
  {
    CancelEffect(db, x, e, next);
    assert db'.tasks[e.task] == TaskAfter(db, e, e.task);
  }

  /** After its commit a process owes exactly the payload its event gives rise to. */
  lemma CommitOwes(db: Tables, now: Time, ids: map<AgentId, Identity>, x: Txn, e: Event, hook: Option<Payload>, next: Option<Prog>, db': Tables)
    requires CommitOk(db, now, ids, x, e, hook, next) && Addressed(db, e) && RowsAfter(db, e, db')
    ensures HookOf(db, e) == OwesNext(db', hook, next)
  {
    match e
    case Finish(_, _, _, _, _) => FinishOwes(db, x, e, hook, db');
    case Cancel(_, _, _, _) => CancelOwes(db, x, e, next, db');
    case _ =>
  }

  ghost predicate HooksOk(sys: Sys) {
    && Legal(sys.log) && SentOk(sys.db, sys.sent)
    && Accounted(Hooks(sys.log), Reported(sys.db, sys.sent), sys.lost, Owed(sys.db, sys.procs))
  }

  lemma HooksMore(log: seq<Event>, e: Event)
    requires Legal(log) && Enabled(Exec(log), e)
    ensures Legal(log + [e]) && Hooks(log + [e]) == Hooks(log) + HookSeq(HookOf(Exec(log), e)) && OnePerTask(Hooks(log + [e]))
  {
    LegalMore(log, e);
    assert Front(log + [e]) == log && Last(log + [e]) == e;
    HookLaw(log + [e]);
  }

  lemma OwedReplace(db: Tables, procs: map<Pid, Proc>, pid: Pid, p': Proc)
    requires if pid in procs then Owes(db, p'.prog) == Owes(db, procs[pid].prog) else Owes(db, p'.prog).None?
    ensures Owed(db, procs[pid := p']) == Owed(db, procs)
  {
  }

  lemma OwedRemove(db: Tables, procs: map<Pid, Proc>, pid: Pid)
    ensures Owed(db, procs - {pid}) == Owed(db, procs) - {pid}
    ensures pid in procs && Owes(db, procs[pid].prog).None? ==> Owed(db, procs - {pid}) == Owed(db, procs)
  {
  }

  lemma StatementKeepsDebt(db: Tables, now: Time, ids: map<AgentId, Identity>, p: Proc, luck: Luck)
    requires ProcOk(db, now, ids, p) && !p.prog.Commit? && !p.prog.Dispatch?
    ensures var res := After(db, now, p, luck);
      if res.Continue? then Owes(db, res.proc.prog) == Owes(db, p.prog) else Owes(db, p.prog).None?
  {
    StatementOwes(db, now, p, luck);
    if p.prog.Refresh? { RefreshOwes(db, now, ids, p, luck); }
  }

  lemma OwedStatement(sys: Sys, pid: Pid, luck: Luck)
    requires pid in sys.procs && ProcOk(sys.db, sys.now, sys.ids, sys.procs[pid])
    requires !sys.procs[pid].prog.Commit? && !sys.procs[pid].prog.Dispatch?
    ensures Owed(sys.db, AfterStatement(sys, pid, luck).procs) == Owed(sys.db, sys.procs)
  {
    StatementKeepsDebt(sys.db, sys.now, sys.ids, sys.procs[pid], luck);
    OwedAfterStatement(sys, pid, luck);
  }

  lemma OwedAfterStatement(sys: Sys, pid: Pid, luck: Luck)
    requires pid in sys.procs
    requires var p := sys.procs[pid]; var res := After(sys.db, sys.now, p, luck);
      if res.Continue? then Owes(sys.db, res.proc.prog) == Owes(sys.db, p.prog) else Owes(sys.db, p.prog).None?
    ensures Owed(sys.db, AfterStatement(sys, pid, luck).procs) == Owed(sys.db, sys.procs)
  {
    var res := After(sys.db, sys.now, sys.procs[pid], luck);
    if res.Continue? { OwedReplace(sys.db, sys.procs, pid, res.proc); } else { OwedRemove(sys.db, sys.procs, pid); }
  }

  lemma OwedEvent(sys: Sys, e: Event, db': Tables)
    requires ProcsOk(sys) && Enabled(sys.db, e) && RowsAfter(sys.db, e, db') && (e.Start? || e.Finish? ==> PairInv(sys.db, e.shard))
    ensures Owed(db', sys.procs) == Owed(sys.db, sys.procs)
  {
    forall pid | pid in sys.procs ensures Owes(db', sys.procs[pid].prog) == Owes(sys.db, sys.procs[pid].prog) {
      var prog := sys.procs[pid].prog;
      if prog.Refresh? || prog.Dispatch? { DebtorClosed(sys.db, sys.now, sys.ids, sys.procs[pid]); }
      OwesStays(sys.db, prog, e, db');
    }
  }

  lemma HooksDirect(sys: Sys, e: Event)
    requires Core(sys) && HooksOk(sys) && Standalone(sys, e)
    ensures HooksOk(sys.(db := Apply(sys.db, e), log := sys.log + [e]))
  {
    HooksMore(sys.log, e);
    ApplyRows(sys.db, e);
    OwedEvent(sys, e, Apply(sys.db, e));
    ReportedStays(sys.db, e, Apply(sys.db, e), sys.sent);
    assert Hooks(sys.log + [e]) == Hooks(sys.log);
  }

  /** The commit hands its process the event's payload, and leaves the others' debts alone. */
  lemma OwedCommit(sys: Sys, pid: Pid, db': Tables, h: Option<Payload>)
    requires pid in sys.procs && sys.procs[pid].prog.Commit? && sys.procs[pid].prog.event.Some?
    requires Owed(db', sys.procs) == Owed(sys.db, sys.procs)
    requires h == OwesNext(db', sys.procs[pid].prog.hook, sys.procs[pid].prog.next)
    ensures var before := Owed(sys.db, sys.procs);
      && pid !in before
      && Owed(db', Committed(sys, pid).procs) == if h.Some? then before[pid := h.value] else before
  {
    OwedAfterCommit(sys, pid, db');
  }

  lemma OwedAfterCommit(sys: Sys, pid: Pid, db': Tables)
    requires pid in sys.procs && sys.procs[pid].prog.Commit? && sys.procs[pid].prog.event.Some?
    ensures var after := AfterCommit(sys.procs[pid].prog); var rest := Owed(db', sys.procs);
      Owed(db', Committed(sys, pid).procs) ==
        if after.Some? && Owes(db', after.value).Some? then rest[pid := Owes(db', after.value).value] else rest
  {
  }

  lemma HooksCommit(sys: Sys, pid: Pid)
    requires Core(sys) && HooksOk(sys) && pid in sys.procs && sys.procs[pid].prog.Commit? && sys.procs[pid].prog.event.Some?
    ensures HooksOk(Committed(sys, pid))
  {
    var e := sys.procs[pid].prog.event.value;
    JointInvariant(sys.log);
    CommitFacts(sys.procs, pid, sys.db, sys.now, sys.ids);
    HooksCommitted(sys, pid, Apply(sys.db, e));
  }

  lemma CommitDebt(db: Tables, now: Time, ids: map<AgentId, Identity>, p: Proc, db': Tables)
    requires ProcOk(db, now, ids, p) && p.prog.Commit? && p.prog.event.Some?
    requires Enabled(db, p.prog.event.value) && RowsAfter(db, p.prog.event.value, db')
    ensures HookOf(db, p.prog.event.value) == OwesNext(db', p.prog.hook, p.prog.next)
  {
    CommitOwes(db, now, ids, p.txn, p.prog.event.value, p.prog.hook, p.prog.next, db');
  }

  lemma HooksCommitted(sys: Sys, pid: Pid, db': Tables)
    requires Core(sys) && HooksOk(sys) && JointInv(sys.db)
    requires pid in sys.procs && sys.procs[pid].prog.Commit? && sys.procs[pid].prog.event.Some?
    requires var e := sys.procs[pid].prog.event.value;
      Enabled(sys.db, e) && db' == Apply(sys.db, e) && View(sys.db, sys.procs[pid].txn) == db'
    ensures HooksOk(Committed(sys, pid))
  {
    var e := sys.procs[pid].prog.event.value;
    ApplyRows(sys.db, e);
    HooksMore(sys.log, e);
    assert e.Start? || e.Finish? ==> PairInv(sys.db, e.shard);
    OwedEvent(sys, e, db');
    ReportedStays(sys.db, e, db', sys.sent);
    CommitDebt(sys.db, sys.now, sys.ids, sys.procs[pid], db');
    var h := HookOf(sys.db, e);
    OwedCommit(sys, pid, db', h);
    if h.Some? { HookAdded(Hooks(sys.log), Reported(sys.db, sys.sent), sys.lost, Owed(sys.db, sys.procs), pid, h.value); }
    else { assert Hooks(sys.log + [e]) == Hooks(sys.log); }
  }

  lemma HooksSend(sys: Sys, pid: Pid)
    requires HooksOk(sys) && pid in sys.procs && ProcOk(sys.db, sys.now, sys.ids, sys.procs[pid]) && sys.procs[pid].prog.Dispatch?
    ensures var d := Sent(sys.procs[pid].prog.payload, sys.procs[pid].prog.reread);
      HooksOk(sys.(procs := sys.procs - {pid}, sent := sys.sent + [d]))
  {
    var d := Sent(sys.procs[pid].prog.payload, sys.procs[pid].prog.reread);
    HookSent(Hooks(sys.log), Reported(sys.db, sys.sent), sys.lost, Owed(sys.db, sys.procs), pid);
    OwedRemove(sys.db, sys.procs, pid);
    assert Reported(sys.db, sys.sent + [d]) == Reported(sys.db, sys.sent) + [Told(sys.db, d.payload)];
  }

  lemma HooksRestart(sys: Sys)
    requires HooksOk(sys)
    ensures HooksOk(sys.(procs := map[], ids := map[], recent := {}, lost := sys.lost + Debts(sys.db, sys.procs)))
  {
    HooksLost(Hooks(sys.log), Reported(sys.db, sys.sent), sys.lost, Owed(sys.db, sys.procs));
    DebtsOwed(sys.db, sys.procs);
    assert Owed(sys.db, map[]) == map[];
  }

  /** Actions that change neither the tables nor what was sent. */
  lemma HooksQuietStep(sys: Sys, a: Action)
    requires ProcsOk(sys) && HooksOk(sys) && Can(sys, a)
    requires a.Tick? || a.Spawn? || a.Statement? || a.Abort? || a.Register?
    ensures HooksOk(Next(sys, a))
  {
    match a
    case Statement(pid, luck) => OwedStatement(sys, pid, luck);
    case Spawn(pid, prog) => OwedReplace(sys.db, sys.procs, pid, Proc(IDLE, prog));
    case Abort(pid) => OwedRemove(sys.db, sys.procs, pid);
    case _ =>
  }

  lemma HooksStep(sys: Sys, a: Action)
    requires Core(sys) && HooksOk(sys) && Can(sys, a)
    ensures HooksOk(Next(sys, a))
  {
    match a
    case CommitNow(pid) =>
      if sys.procs[pid].prog.event.Some? { HooksCommit(sys, pid); } else { HooksEmptyCommit(sys, pid); }
    case Send(pid) => HooksSend(sys, pid);
    case Direct(e) => HooksDirect(sys, e);
    case Restart => HooksRestart(sys);
    case _ => HooksQuietStep(sys, a);
  }

  lemma HooksEmptyCommit(sys: Sys, pid: Pid)
    requires Core(sys) && HooksOk(sys) && pid in sys.procs && sys.procs[pid].prog.Commit? && sys.procs[pid].prog.event.None?
    ensures HooksOk(Committed(sys, pid))
  {
    EmptyCommit(sys.db, sys.now, sys.ids, sys.procs[pid]);
    OwedRemove(sys.db, sys.procs, pid);
  }

  lemma DebtsOwed(db: Tables, procs: map<Pid, Proc>)
    ensures Debts(db, procs) == Owed(db, procs).Values
  {
    var owed := Owed(db, procs);
    forall p ensures p in Debts(db, procs) <==> p in owed.Values {
      if p in owed.Values {
        var pid :| pid in owed && owed[pid] == p;
        assert pid in procs;
      }
      if p in Debts(db, procs) {
        var pid :| pid in procs && Owes(db, procs[pid].prog).Some? && Owes(db, procs[pid].prog).value == p;
        assert pid in owed && owed[pid] == p;
      }
    }
  }

  lemma {:induction false} HooksAlways(actions: seq<Action>)
    requires Feasible(actions)
    ensures HooksOk(Run(actions))
  {
    if |actions| > 0 {
      Serializability(Front(actions));
      HooksAlways(Front(actions));
      HooksStep(Run(Front(actions)), Last(actions));
    }
  }

  /** Some dispatched payload is about the task. */
  ghost predicate HasSent(sent: seq<Sent>, t: TaskId) {
    exists i :: 0 <= i < |sent| && sent[i].payload.task == t
  }

  lemma SentMeansReported(db: Tables, sent: seq<Sent>, t: TaskId)
    ensures HasSent(sent, t) <==> HasHook(Reported(db, sent), t)
  {
    if HasSent(sent, t) {
      var i :| 0 <= i < |sent| && sent[i].payload.task == t;
      assert Reported(db, sent)[i].task == t;
    }
  }

  /**
   Over any run at most one payload is dispatched per task, and every task that
   has a URL and was closed by recompute or cancel has had its payload dispatched,
   unless a process is still about to or a restart dropped it.
   */
  lemma HookDelivery(actions: seq<Action>, t: TaskId)
    requires Feasible(actions) && t in Run(actions).db.tasks
    ensures var sys := Run(actions);
      && (forall i, j :: 0 <= i < j < |sys.sent| ==> sys.sent[i].payload.task != sys.sent[j].payload.task)
      && (HasSent(sys.sent, t) ==> ClosedByWork(sys.db, t) && sys.db.tasks[t].hookUrl != "")
      && (ClosedByWork(sys.db, t) && sys.db.tasks[t].hookUrl != "" ==>
          || HasSent(sys.sent, t)
          || (exists p :: p in sys.lost && p.task == t)
          || (exists pid :: pid in Owed(sys.db, sys.procs) && Owed(sys.db, sys.procs)[pid].task == t))
  {
    var sys := Run(actions);
    Serializability(actions);
    HooksAlways(actions);
    HookLaw(sys.log);
    SentMeansReported(sys.db, sys.sent, t);
    DistinctReports(sys.db, sys.sent);
    WhereIsHook(sys, t);
  }

  lemma DistinctReports(db: Tables, sent: seq<Sent>)
    requires OnePerTask(Reported(db, sent))
    ensures forall i, j :: 0 <= i < j < |sent| ==> sent[i].payload.task != sent[j].payload.task
  {
    forall i, j | 0 <= i < j < |sent| ensures sent[i].payload.task != sent[j].payload.task {
      assert Reported(db, sent)[i].task != Reported(db, sent)[j].task;
    }
  }

  lemma WhereIsHook(sys: Sys, t: TaskId)
    requires HooksOk(sys) && t in sys.db.tasks && HooksFit(sys.db, Hooks(sys.log))
    ensures HasHook(Reported(sys.db, sys.sent), t) ==> ClosedByWork(sys.db, t) && sys.db.tasks[t].hookUrl != ""
    ensures ClosedByWork(sys.db, t) && sys.db.tasks[t].hookUrl != "" ==>
      || HasHook(Reported(sys.db, sys.sent), t)
      || (exists p :: p in sys.lost && p.task == t)
      || (exists pid :: pid in Owed(sys.db, sys.procs) && Owed(sys.db, sys.procs)[pid].task == t)
  {
    var owed := Owed(sys.db, sys.procs);
    if ClosedByWork(sys.db, t) && sys.db.tasks[t].hookUrl != "" {
      var p :| p in Hooks(sys.log) && p.task == t;
      if p in owed.Values {
        var pid :| pid in owed && owed[pid] == p;
        assert owed[pid].task == t;
      }
    }
  }

  /**
   What a dispatched payload says, in every run: always the task's permanent
   status, error, tenant and URL, and a result exactly when all shards succeeded.
   Its finish time is the row's if and only if the row could be read again after
   the commit; otherwise it is unset, and the task was cancelled.
   */
  lemma DispatchedOutcome(actions: seq<Action>, i: nat)
    requires Feasible(actions) && i < |Run(actions).sent|
    ensures var sys := Run(actions); var d := sys.sent[i];
      && OutcomeFits(sys.db, d.payload)
      && (d.payload.finishedAt == sys.db.tasks[d.payload.task].finishedAt <==> d.reread)
      && (!d.reread ==> d.payload.finishedAt.None? && d.payload.status.Cancelled?)
  {
    var sys := Run(actions);
    Serializability(actions);
    HooksAlways(actions);
    HookLaw(sys.log);
    JointInvariant(sys.log);
    var told := Reported(sys.db, sys.sent);
    assert told[i] in told;
    OutcomeOf(sys.db, sys.sent[i]);
  }

  lemma OutcomeOf(db: Tables, d: Sent)
    requires PayloadFits(db, Told(db, d.payload)) && TimedAs(db, d.payload, d.reread) && FinishFits(db.tasks[d.payload.task])
    ensures OutcomeFits(db, d.payload)
    ensures d.payload.finishedAt == db.tasks[d.payload.task].finishedAt <==> d.reread
    ensures !d.reread ==> d.payload.finishedAt.None? && d.payload.status.Cancelled?
  {
  }
}
