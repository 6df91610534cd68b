/**
 The control server: how agent messages move the store and the registry together.

 An agent that reports IDLE is resynchronised: whatever the store says it holds
 goes back to the queue, and it is leased the next shard, or none.
 */
module Control {
  import opened Rows
  import opened Ledger
  import opened Queue
  import opened Database
  import opened Agents
  import opened Interleaving
  import Columns

  datatype Session = Session(agent: AgentId, tenant: TenantId, backend: string)

  datatype Reply = Done | AgentUnknown | WrongAgent | SendFailed | Refused(why: Error)

  function Call(sess: Session): LeaseCall {
    LeaseCall(sess.agent, sess.tenant, sess.backend)
  }

  /** A lease moves a waiting task to QUEUED: the one trace that a compensated lease leaves. */
  function PromotedTasks(tasks: map<TaskId, Task>, t: TaskId): map<TaskId, Task> {
    if t in tasks && tasks[t].status == TaskStatus.WaitingForAgents then tasks[t := tasks[t].(status := TaskStatus.Queued)] else tasks
  }

  /** The slot after the agent, if known, was seen. */
  function Latest(slot: Slot, status: AgentStatus, current: Option<ShardId>, now: Time): Slot {
    if slot.agent.None? then slot
    else slot.(agent := Some(slot.agent.value.(status := status, current := current, lastSeen := now / 1_000_000_000 * 1_000_000_000)))
  }

  /** The agent may speak about the shard: its task is the session's, and the shard its own or done. */
  predicate Yours(db: Tables, sess: Session, s: ShardId) {
    && s in db.shards && db.shards[s].task in db.tasks && db.tasks[db.shards[s].task].tenant == sess.tenant
    && sess.tenant in db.tenants && db.tenants[sess.tenant].backend == sess.backend
    && (db.shards[s].agent == Some(sess.agent) || !Columns.IsActive(db.shards[s]))
  }

  class Server {
    const db: Db
    const registry: Registry

    constructor (db: Db, registry: Registry)
      ensures this.db == db && this.registry == registry
    {
      this.db, this.registry := db, registry;
    }

    /** The lease, row by row. */
    method TakeLease(q: LeaseCall) returns (leased: Option<ShardId>, t: TaskId, status: TaskStatus)
      requires db.Valid()
      modifies db
      ensures db.Valid() && db.tenants == old(db.tenants) && !status.WaitingForAgents?
      ensures leased.None? <==> AllClosed(old(db.Tables()), q.tenant, q.backend)
      ensures leased.Some? ==>
        && FirstOpen(old(db.Tables()), q.tenant, q.backend, leased.value) && old(db.shards)[leased.value].agent.None?
        && Columns.Leases(old(db.Tables()), db.Tables(), leased.value, q.agent, q.tenant, q.backend)
      ensures leased.None? ==> db.Tables() == old(db.Tables())
    {
      QueuedUnassigned(db.log);
      var err, s;
      err, s, t, status := db.LeaseNextShard(q);
      if err.Some? { return None, t, TaskStatus.Queued; }
      leased := Some(s);
    }

    /** Taking the lease back leaves the shards as they were. */
    method Undo(s: ShardId, t: TaskId, status: TaskStatus, ghost before: map<ShardId, Shard>, ghost agent: AgentId) returns (ok: bool)
      requires db.Valid() && !status.WaitingForAgents?
      requires s in before && before[s].status.Queued? && before[s].agent.None? && db.shards == before[s := before[s].(status := ShardStatus.Leased, agent := Some(agent))]
      modifies db
      ensures db.Valid() && db.tenants == old(db.tenants) && db.tasks == old(db.tasks) && db.shards == before && ok
    {
      var err := db.RollbackAssignedShard(s, t, status);
      ok := err.None?;
      assert db.shards == before[s := before[s].(status := ShardStatus.Leased, agent := Some(agent))][s := before[s]] == before;
    }

    /** Mark the agent busy and send; `sent` says whether signing the URLs and sending succeed. */
    method Deliver(agent: AgentId, now: Time, sent: bool, s: ShardId, t: TaskId, status: TaskStatus, ghost before: map<ShardId, Shard>)
      returns (reply: Reply)
      requires db.Valid() && !status.WaitingForAgents?
      requires s in before && before[s].status.Queued? && before[s].agent.None? && db.shards == before[s := before[s].(status := ShardStatus.Leased, agent := Some(agent))]
      modifies db, registry
      ensures db.Valid() && db.tenants == old(db.tenants) && db.tasks == old(db.tasks) && registry.OthersKept(agent)
      ensures reply == if agent !in old(registry.agents) then AgentUnknown else if sent then Done else SendFailed
      ensures db.shards == if reply.Done? then old(db.shards) else before
      ensures registry.At(agent) ==
        if reply.Done? then Latest(old(registry.At(agent)), AgentStatus.Running, Some(s), now) else Latest(old(registry.At(agent)), Idle, None, now)
    {
      var busy := registry.HeartbeatAgent(agent, AgentStatus.Running, Some(s), now);
      if busy && sent { return Done; }
      var undone := Undo(s, t, status, before, agent);
      if undone {
        var _ := registry.HeartbeatAgent(agent, Idle, None, now);
      }
      reply := if busy then SendFailed else AgentUnknown;
    }

    /** Lease, mark the agent busy, send; whatever fails after the lease undoes it. */
    method TryAssignShard(sess: Session, now: Time, sent: bool) returns (reply: Reply, leased: Option<ShardId>)
      requires db.Valid()
      modifies db, registry
      ensures db.Valid() && db.tenants == old(db.tenants)
      ensures Assigned(sess, now, sent, old(db.Tables()), db.Tables(), old(registry.At(sess.agent)), registry.At(sess.agent), reply, leased)
      ensures registry.OthersKept(sess.agent)
    {
      if sess.agent == "" || sess.backend == "" { return Done, None; }
      ghost var before := db.Tables();
      var t, status;
      leased, t, status := TakeLease(Call(sess));
      if leased.None? { return Done, None; }
      ghost var s := leased.value;
      reply := Deliver(sess.agent, now, sent, leased.value, t, status, before.shards);
      if !reply.Done? { leased := None; }
      assert AssignedTo(sess, now, sent, before, db.Tables(), old(registry.At(sess.agent)), registry.At(sess.agent), reply, leased, s);
    }

    method HandleHeartbeat(sess: Session, about: AgentId, status: AgentStatus, current: Option<ShardId>, now: Time, sent: bool)
      returns (reply: Reply, leased: Option<ShardId>)
      requires db.Valid()
      modifies db, registry
      ensures db.Valid() && db.tenants == old(db.tenants) && registry.OthersKept(sess.agent)
      ensures reply.WrongAgent? <==> about != "" && about != sess.agent
      ensures reply.WrongAgent? ==> db.Tables() == old(db.Tables()) && registry.At(sess.agent) == old(registry.At(sess.agent))
      ensures !reply.WrongAgent? && status.Idle? ==>
        Resynced(sess, current, sent, old(db.Tables()), db.Tables(), old(registry.At(sess.agent)), registry.At(sess.agent), leased)
      ensures !reply.WrongAgent? && sess.agent in old(registry.agents) ==>
        registry.At(sess.agent).timer == Some(Agents.Heartbeat(now + registry.lim.heartbeat))
      ensures !reply.WrongAgent? && !status.Idle? ==>
        && db.Tables() == old(db.Tables()) && leased.None?
        && registry.At(sess.agent) == Beaten(registry.lim, old(registry.At(sess.agent)), status, current, now)
    {
      leased := None;
      if about != "" && about != sess.agent { return WrongAgent, None; }
      if status.Idle? {
        reply, leased := HandleIdle(sess, current, now, sent);
      } else {
        var known := registry.HeartbeatAgent(sess.agent, status, current, now);
        if !known { return AgentUnknown, None; }
        registry.ResetHeartbeat(sess.agent, now);
        reply := Done;
      }
    }

    /** An IDLE heartbeat: roll back what the agent holds, note the heartbeat, lease anew. */
    method HandleIdle(sess: Session, current: Option<ShardId>, now: Time, sent: bool) returns (reply: Reply, leased: Option<ShardId>)
      requires db.Valid()
      modifies db, registry
      ensures db.Valid() && db.tenants == old(db.tenants) && registry.OthersKept(sess.agent) && !reply.WrongAgent?
      ensures Resynced(sess, current, sent, old(db.Tables()), db.Tables(), old(registry.At(sess.agent)), registry.At(sess.agent), leased)
      ensures sess.agent in old(registry.agents) ==> registry.At(sess.agent).timer == Some(Agents.Heartbeat(now + registry.lim.heartbeat))
    {
      leased := None;
      ghost var a, was := db.Tables(), registry.At(sess.agent);
      var _ := db.RollbackOrphanShardsForAgent(sess.agent);
      FreedRequeued(a.shards, sess.agent);
      ghost var mid := db.Tables();
      var known := registry.HeartbeatAgent(sess.agent, Idle, current, now);
      if !known {
        UnknownResync(sess, current, sent, a, mid, was);
        return AgentUnknown, None;
      }
      registry.ResetHeartbeat(sess.agent, now);
      ghost var slot := registry.At(sess.agent);
      reply, leased := TryAssignShard(sess, now, sent);
      AssignResync(sess, current, now, sent, a, mid, db.Tables(), slot, registry.At(sess.agent), reply, leased);
    }

    /**
     Right after an accepted registration. An agent that comes back RUNNING is reset
     to IDLE without a shard and resynchronised like one that reports IDLE. One that
     comes back IDLE is leased a shard with nothing rolled back. Others are left alone.
     */
    method HandleReconnectedAgent(sess: Session, now: Time, sent: bool) returns (reply: Reply, leased: Option<ShardId>)
      requires db.Valid() && sess.agent in registry.agents
      modifies db, registry
      ensures db.Valid() && db.tenants == old(db.tenants) && registry.OthersKept(sess.agent)
      ensures old(registry.agents)[sess.agent].status.Running? ==>
        && Resynced(sess, None, sent, old(db.Tables()), db.Tables(), old(registry.At(sess.agent)), registry.At(sess.agent), leased)
        && (leased.None? ==> registry.agents[sess.agent].status.Idle?)
      ensures old(registry.agents)[sess.agent].status.Idle? ==>
        Assigned(sess, now, sent, old(db.Tables()), db.Tables(), old(registry.At(sess.agent)), registry.At(sess.agent), reply, leased)
      ensures !old(registry.agents)[sess.agent].status.Running? && !old(registry.agents)[sess.agent].status.Idle? ==>
        db.Tables() == old(db.Tables()) && registry.At(sess.agent) == old(registry.At(sess.agent)) && leased.None?
    {
      leased := None;
      if registry.agents[sess.agent].status.Running? {
        var _ := registry.HeartbeatAgent(sess.agent, Idle, None, now);
        reply, leased := RequeueAndAssign(sess, now, sent);
      } else if registry.agents[sess.agent].status.Idle? {
        reply, leased := TryAssignShard(sess, now, sent);
      } else {
        reply := Done;
      }
    }

    method RequeueAndAssign(sess: Session, now: Time, sent: bool) returns (reply: Reply, leased: Option<ShardId>)
      requires db.Valid() && sess.agent in registry.agents && registry.agents[sess.agent].current.None?
      requires registry.agents[sess.agent].status.Idle?
      modifies db, registry
      ensures db.Valid() && db.tenants == old(db.tenants) && registry.OthersKept(sess.agent)
      ensures Resynced(sess, None, sent, old(db.Tables()), db.Tables(), old(registry.At(sess.agent)), registry.At(sess.agent), leased)
      ensures sess.agent in registry.agents && (leased.None? ==> registry.agents[sess.agent].status.Idle?)
    {
      ghost var a, slot := db.Tables(), registry.At(sess.agent);
      var _ := db.RollbackOrphanShardsForAgent(sess.agent);
      FreedRequeued(a.shards, sess.agent);
      ghost var mid := db.Tables();
      reply, leased := TryAssignShard(sess, now, sent);
      AssignResync(sess, None, now, sent, a, mid, db.Tables(), slot, registry.At(sess.agent), reply, leased);
    }

    /** A start report counts only from the agent the shard is leased to. */
    method HandleShardStarted(sess: Session, s: ShardId, now: Time, at: Time) returns (reply: Reply)
      requires db.Valid() && db.clock <= now <= at
      modifies db, registry
      ensures db.Valid() && db.tenants == old(db.tenants) && registry.OthersKept(sess.agent)
      ensures reply.Refused? ==> db.Tables() == old(db.Tables()) && registry.At(sess.agent) == old(registry.At(sess.agent))
      ensures !reply.Refused? ==>
        && Columns.Starts(old(db.Tables()), db.Tables(), s, now, at) && old(db.shards)[s].agent == Some(sess.agent)
        && registry.At(sess.agent) == Latest(old(registry.At(sess.agent)), AgentStatus.Running, Some(s), now)
      ensures reply.Refused? <==>
        || !Yours(old(db.Tables()), sess, s)
        || old(db.shards)[s].status != ShardStatus.Leased || old(db.tasks)[old(db.shards)[s].task].status == TaskStatus.Cancelled
    {
      var err := LoadValidatedShard(db.Tables(), s, sess.agent, sess.tenant, sess.backend);
      if err.Some? { return Refused(err.value); }
      if !db.shards[s].status.Leased? { return Refused(WrongShardStatus(db.shards[s].status)); }
      err := StartIt(s, now, at);
      if err.Some? { return Refused(err.value); }
      var known := registry.HeartbeatAgent(sess.agent, AgentStatus.Running, Some(s), now);
      reply := if known then Done else AgentUnknown;
    }

    method StartIt(s: ShardId, now: Time, at: Time) returns (err: Option<Error>)
      requires db.Valid() && db.clock <= now <= at && s in db.shards && db.shards[s].task in db.tasks && db.shards[s].status.Leased?
      modifies db
      ensures db.Valid() && db.tenants == old(db.tenants)
      ensures err.Some? <==> old(db.tasks)[old(db.shards)[s].task].status.Cancelled?
      ensures err.None? ==> Columns.Starts(old(db.Tables()), db.Tables(), s, now, at)
      ensures err.Some? ==> db.Tables() == old(db.Tables())
    {
      var hook;
      ghost var done;
      err, hook, done := db.ReportShardStatus(Report(s, AskRunning, now), at, at);
    }

    /** The agent is marked IDLE and assigned the next shard. */
    method ResetAgentAndAssign(sess: Session, now: Time, sent: bool) returns (reply: Reply, leased: Option<ShardId>)
      requires db.Valid()
      modifies db, registry
      ensures db.Valid() && db.tenants == old(db.tenants) && registry.OthersKept(sess.agent)
      ensures Reassigned(sess, now, sent, old(db.Tables()), db.Tables(), old(registry.At(sess.agent)), registry.At(sess.agent), reply, leased)
    {
      leased := None;
      var known := registry.HeartbeatAgent(sess.agent, Idle, None, now);
      if !known { return AgentUnknown, None; }
      reply, leased := TryAssignShard(sess, now, sent);
    }

    /**
     A result or a failure reported by an agent. It is refused exactly when the
     shard is not the agent's to speak about, or is RUNNING under a cancelled task.
     Otherwise a RUNNING shard is finished, a success is acknowledged if the
     acknowledgement can be sent, and the agent is assigned the next shard, unless
     it has moved on from this one. `mid` are the tables before that assignment.
     */
    method HandleShardEnd(sess: Session, s: ShardId, o: Outcome, now: Time, at: Time, closedAt: Time, ackSent: bool, sent: bool)
      returns (reply: Reply, acked: bool, hook: Option<Payload>, leased: Option<ShardId>, ghost done: Option<Event>, ghost mid: Tables)
      requires db.Valid() && db.clock <= now <= at <= closedAt
      modifies db, registry
      ensures db.Valid() && db.tenants == old(db.tenants) && registry.OthersKept(sess.agent)
      ensures reply.Refused? <==>
        || !Yours(old(db.Tables()), sess, s)
        || (old(db.shards)[s].status == ShardStatus.Running && old(db.tasks)[old(db.shards)[s].task].status == TaskStatus.Cancelled)
      ensures reply.Refused? ==>
        && db.Tables() == old(db.Tables()) && registry.At(sess.agent) == old(registry.At(sess.agent))
        && !acked && leased.None? && hook.None? && done.None?
      ensures !reply.Refused? ==> (done.Some? <==> old(db.shards)[s].status == ShardStatus.Running) && (acked <==> o.Success? && ackSent)
      ensures !reply.Refused? ==>
        if done.Some? then Finishes(old(db.Tables()), done, s, o, at, closedAt, hook, mid) && old(db.shards)[s].agent == Some(sess.agent)
        else mid == old(db.Tables()) && hook.None?
      ensures !reply.Refused? ==>
        var slot := old(registry.At(sess.agent));
        if (done.Some? || (slot.agent.Some? && slot.agent.value.current == Some(s))) && (acked || o.Failure?)
        then Reassigned(sess, now, sent, mid, db.Tables(), slot, registry.At(sess.agent), reply, leased)
        else db.Tables() == mid && registry.At(sess.agent) == slot && leased.None? && reply == if acked || o.Failure? then Done else SendFailed
    {
      acked, hook, leased, done, mid := false, None, None, None, db.Tables();
      var err := LoadValidatedShard(db.Tables(), s, sess.agent, sess.tenant, sess.backend);
      if err.Some? { return Refused(err.value), acked, hook, leased, done, mid; }
      var mine := registry.At(sess.agent).agent;
      var go := mine.Some? && mine.value.current == Some(s);
      if db.shards[s].status.Running? {
        err, hook, done := FinishIt(s, o, now, at, closedAt);
        if err.Some? { return Refused(err.value), acked, hook, leased, done, mid; }
        go := true;
      }
      mid := db.Tables();
      if o.Success? {
        if !ackSent { return SendFailed, acked, hook, leased, done, mid; }
        acked := true;
      }
      reply := Done;
      if go { reply, leased := ResetAgentAndAssign(sess, now, sent); }
    }

    method FinishIt(s: ShardId, o: Outcome, now: Time, at: Time, closedAt: Time)
      returns (err: Option<Error>, hook: Option<Payload>, ghost done: Option<Event>)
      requires db.Valid() && db.clock <= now <= at <= closedAt && s in db.shards && db.shards[s].task in db.tasks && db.shards[s].status.Running?
      modifies db
      ensures db.Valid() && db.tenants == old(db.tenants)
      ensures err.Some? <==> old(db.tasks)[old(db.shards)[s].task].status == TaskStatus.Cancelled
      ensures err.None? ==> Finishes(old(db.Tables()), done, s, o, at, closedAt, hook, db.Tables())
      ensures err.Some? ==> db.Tables() == old(db.Tables()) && hook.None? && done.None?
    {
      err, hook, done := db.ReportShardStatus(Report(s, AskEnd(o), now), at, closedAt);
    }
  }

  /** The event finishes the shard with this outcome, and the hook is the one it owes. */
  ghost predicate Finishes(a: Tables, done: Option<Event>, s: ShardId, o: Outcome, at: Time, closedAt: Time, hook: Option<Payload>, b: Tables) {
    && done.Some? && done.value.Finish? && done.value == Finish(s, o, at, closedAt, done.value.note)
    && Columns.Does(a, done.value, b) && Addressed(a, done.value) && hook == HookOf(a, done.value)
  }

  function Beaten(lim: Limits, slot: Slot, status: AgentStatus, current: Option<ShardId>, now: Time): Slot {
    if slot.agent.None? then slot else Latest(slot, status, current, now).(timer := Some(Agents.Heartbeat(now + lim.heartbeat)))
  }

  /** The shard is LEASED to the agent, or RUNNING on it. */
  predicate Holds(row: Shard, agent: AgentId) {
    row.agent == Some(agent) && (row.status == ShardStatus.Leased || row.status == ShardStatus.Running)
  }

  /** The shards after everything the agent held is queued and unassigned. */
  function Freed(shards: map<ShardId, Shard>, agent: AgentId): map<ShardId, Shard> {
    map x | x in shards :: if Holds(shards[x], agent) then shards[x].(status := ShardStatus.Queued, agent := None) else shards[x]
  }

  /**
   After an IDLE heartbeat the agent holds exactly what it was just leased. What
   it held before is queued and unassigned, nobody else's shard changed, no task
   changed but for one promotion to QUEUED, and the registry's current shard is
   the leased one, or else the one the message names. A shard is leased whenever
   one is open for the agent, it is known, and the message can be sent.
   */
  ghost predicate Resynced(sess: Session, current: Option<ShardId>, sent: bool, a: Tables, b: Tables, was: Slot, slot: Slot, leased: Option<ShardId>) {
    && (forall x :: x in b.shards && Holds(b.shards[x], sess.agent) <==> leased == Some(x))
    && b.shards.Keys == a.shards.Keys
    && var free := Freed(a.shards, sess.agent); var mid := a.(shards := free);
    && (forall x :: x in a.shards && leased != Some(x) ==> b.shards[x] == free[x])
    && (b.tasks == a.tasks || exists s :: FirstOpen(mid, sess.tenant, sess.backend, s) && b.tasks == PromotedTasks(a.tasks, a.shards[s].task))
    && (slot.agent.Some? <==> was.agent.Some?)
    && (leased.Some? ==> FirstOpen(mid, sess.tenant, sess.backend, leased.value))
    && (leased.Some? <==> sent && was.agent.Some? && sess.agent != "" && sess.backend != "" && !AllClosed(mid, sess.tenant, sess.backend))
    && (slot.agent.Some? && (leased.Some? || current.None?) ==> slot.agent.value.current == leased)
    && (slot.agent.Some? ==> slot.agent.value.status == if leased.Some? then AgentStatus.Running else Idle)
  }

  lemma FreedRequeued(shards: map<ShardId, Shard>, agent: AgentId)
    ensures Requeued(shards, HeldBy(shards, agent)) == Freed(shards, agent) && Freed(shards, agent).Keys == shards.Keys
    ensures forall x :: x in shards ==> !Holds(Freed(shards, agent)[x], agent)
  {
  }

  lemma UnknownResync(sess: Session, current: Option<ShardId>, sent: bool, a: Tables, b: Tables, was: Slot)
    requires b == a.(shards := Freed(a.shards, sess.agent)) && was.agent.None?
    ensures Resynced(sess, current, sent, a, b, was, was, None)
  {
    FreedRequeued(a.shards, sess.agent);
  }

  lemma AssignResync(sess: Session, current: Option<ShardId>, now: Time, sent: bool, a: Tables, mid: Tables, b: Tables,
                     was: Slot, slot: Slot, reply: Reply, leased: Option<ShardId>)
    requires mid == a.(shards := Freed(a.shards, sess.agent))
    requires was.agent.Some? && was.agent.value.current == current && was.agent.value.status == Idle
    requires Assigned(sess, now, sent, mid, b, was, slot, reply, leased)
    ensures Resynced(sess, current, sent, a, b, was, slot, leased)
  {
    FreedRequeued(a.shards, sess.agent);
    if sess.agent != "" && sess.backend != "" && !AllClosed(mid, sess.tenant, sess.backend) {
      var s :| AssignedTo(sess, now, sent, mid, b, was, slot, reply, leased, s);
      assert mid.shards[s].task == a.shards[s].task;
    }
  }

  /** What an assignment attempt does to the store and to the agent's slot. */
  ghost predicate Assigned(sess: Session, now: Time, sent: bool, a: Tables, b: Tables, was: Slot, slot: Slot, reply: Reply, leased: Option<ShardId>) {
    if sess.agent == "" || sess.backend == "" || AllClosed(a, sess.tenant, sess.backend) then reply.Done? && leased.None? && b == a && slot == was
    else exists s :: AssignedTo(sess, now, sent, a, b, was, slot, reply, leased, s)
  }

  /** The first open shard is leased to the agent; an unknown agent or a failed send undoes the lease. */
  ghost predicate AssignedTo(sess: Session, now: Time, sent: bool, a: Tables, b: Tables, was: Slot, slot: Slot, reply: Reply,
                             leased: Option<ShardId>, s: ShardId) {
    && FirstOpen(a, sess.tenant, sess.backend, s) && b.tenants == a.tenants && b.tasks == PromotedTasks(a.tasks, a.shards[s].task)
    && if was.agent.None? || !sent then
         && reply == (if was.agent.None? then AgentUnknown else SendFailed)
         && leased.None? && b.shards == a.shards && slot == Latest(was, Idle, None, now)
       else
         && reply.Done? && leased == Some(s)
         && b.shards == a.shards[s := a.shards[s].(status := ShardStatus.Leased, agent := Some(sess.agent))]
         && slot == Latest(was, AgentStatus.Running, leased, now)
  }

  /** The agent, if known, becomes IDLE and is assigned the next shard. */
  ghost predicate Reassigned(sess: Session, now: Time, sent: bool, a: Tables, b: Tables, was: Slot, slot: Slot, reply: Reply, leased: Option<ShardId>) {
    if was.agent.None? then reply == AgentUnknown && leased.None? && b == a && slot == was
    else Assigned(sess, now, sent, a, b, Latest(was, Idle, None, now), slot, reply, leased)
  }

  lemma QueuedUnassigned(log: seq<Event>)
    requires Legal(log)
    ensures forall x :: x in Exec(log).shards && Exec(log).shards[x].status.Queued? ==> Exec(log).shards[x].agent.None?
  {
    JointInvariant(log);
  }
}
