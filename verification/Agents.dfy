/**
 The in-memory agent registry with its heartbeat and grace timers.

 `Slot` is what the registry knows about one agent id: its record and its
 pending timer. The functions on slots specify the registry's operations and
 timer callbacks; class `Registry` carries them out on the two maps. Instants
 are nanoseconds; a heartbeat instant is stored in whole seconds.
 */
module Agents {
  import opened Rows
  import opened Ledger

  datatype AgentStatus = Idle | Running | Disconnected | Unresponsive | TimedOut | Other(name: string)
  {
    /** Statuses an agent has while its stream is in order. */
    predicate Connected() {
      !Disconnected? && !Unresponsive? && !TimedOut?
    }
  }

  datatype Agent = Agent(
    tenant: TenantId,
    backend: string,
    status: AgentStatus,
    before: AgentStatus,
    current: Option<ShardId>,
    lastSeen: Time)

  datatype Timer = Heartbeat(due: Time) | Grace(due: Time)

  datatype Slot = Slot(agent: Option<Agent>, timer: Option<Timer>)

  datatype Limits = Limits(heartbeat: Time, grace: Time)
  {
    predicate Positive() {
      heartbeat > 0 && grace > 0
    }
  }

  const SECOND := 1_000_000_000
  const UNSET := Other("")

  /** Whole seconds, as a Unix timestamp keeps them. */
  function Whole(t: Time): (r: Time)
    ensures t - SECOND < r <= t
  {
    t / SECOND * SECOND
  }

  /******* Operations on one slot *******/

  /** The status an agent comes back with after a disconnect. */
  function Recovery(before: AgentStatus): AgentStatus {
    if before == UNSET || before.Disconnected? || before.Unresponsive? || before.TimedOut? then Idle else before
  }

  /** A registration; `None` when it is rejected. */
  function Registered(slot: Slot, tenant: TenantId, backend: string, now: Time): Option<Slot> {
    var newcomer := Agent(tenant, backend, Idle, UNSET, None, Whole(now));
    if slot.agent.None? then Some(slot.(agent := Some(newcomer)))
    else
      var a := slot.agent.value;
      if a.tenant != tenant || a.backend != backend || a.status.Idle? || a.status.Running? then None
      else if a.status.Other? then Some(slot.(agent := Some(newcomer)))
      else Some(slot.(agent := Some(newcomer.(status := Recovery(a.before), current := a.current))))
  }

  /** Status, shard and timestamp are overwritten; no timer is touched. */
  function Touched(slot: Slot, status: AgentStatus, current: Option<ShardId>, now: Time): Option<Slot> {
    if slot.agent.None? then None
    else Some(slot.(agent := Some(slot.agent.value.(status := status, current := current, lastSeen := Whole(now)))))
  }

  function Armed(lim: Limits, slot: Slot, now: Time): Slot {
    slot.(timer := Some(Heartbeat(now + lim.heartbeat)))
  }

  function Graced(lim: Limits, slot: Slot, now: Time): Slot {
    slot.(timer := Some(Grace(now + lim.grace)))
  }

  function Hung(slot: Slot): Slot {
    if slot.agent.None? then slot
    else slot.(agent := Some(slot.agent.value.(status := Disconnected, before := Recovery(slot.agent.value.status))))
  }

  /** The pending timer fires, on time. */
  function Fired(lim: Limits, slot: Slot): Slot
    requires slot.timer.Some?
  {
    var now, off := slot.timer.value.due, slot.(timer := None);
    if slot.agent.None? then off
    else
      var a := slot.agent.value;
      if slot.timer.value.Grace? then
        if a.status.Disconnected? then off.(agent := Some(a.(status := TimedOut, current := None, lastSeen := Whole(now)))) else off
      else if now - a.lastSeen < lim.heartbeat then Armed(lim, off, now)
      else if a.status.Disconnected? || a.status.TimedOut? then off
      else if a.status.Unresponsive? then off.(agent := Some(a.(status := TimedOut, current := None)))
      else Armed(lim, off.(agent := Some(a.(status := Unresponsive))), now)
  }

  /******* Runs of one slot *******/

  /** A whole registration or stream end, a heartbeat message, any other message, or the timer. */
  datatype Step =
    | Register(at: Time, tenant: TenantId, backend: string)
    | Beat(at: Time, status: AgentStatus, current: Option<ShardId>)
    | Touch(at: Time, status: AgentStatus, current: Option<ShardId>)
    | Close(at: Time)
    | Fire

  datatype Timed = Timed(slot: Slot, now: Time)

  /** Time does not go back, and no timer is overdue. */
  predicate Can(st: Timed, step: Step) {
    if step.Fire? then st.slot.timer.Some?
    else st.now <= step.at && (st.slot.timer.Some? ==> step.at <= st.slot.timer.value.due)
  }

  function Next(lim: Limits, st: Timed, step: Step): Timed
    requires Can(st, step)
  {
    match step
    case Register(at, tenant, backend) =>
      var r := Registered(st.slot, tenant, backend, at);
      Timed(if r.Some? then Armed(lim, r.value, at) else st.slot, at)
    case Beat(at, status, current) =>
      var r := Touched(st.slot, status, current, at);
      Timed(if r.Some? then Armed(lim, r.value, at) else st.slot, at)
    case Touch(at, status, current) =>
      var r := Touched(st.slot, status, current, at);
      Timed(if r.Some? then r.value else st.slot, at)
    case Close(at) => Timed(Hung(Graced(lim, st.slot, at)), at)
    case Fire => Timed(Fired(lim, st.slot), st.slot.timer.value.due)
  }

  const START := Timed(Slot(None, None), 0)

  ghost predicate Feasible(lim: Limits, steps: seq<Step>)
    decreases |steps|, 0
  {
    |steps| == 0 || (Feasible(lim, Front(steps)) && Can(Run(lim, Front(steps)), Last(steps)))
  }

  ghost function Run(lim: Limits, steps: seq<Step>): Timed
    requires Feasible(lim, steps)
    decreases |steps|, 1
  {
    if |steps| == 0 then START else Next(lim, Run(lim, Front(steps)), Last(steps))
  }

  /** A pending timer is due between now and one period from now. */
  predicate TimerAhead(lim: Limits, st: Timed) {
    st.slot.timer.Some? ==>
      match st.slot.timer.value
      case Heartbeat(due) => st.now <= due <= st.now + lim.heartbeat
      case Grace(due) => st.now <= due <= st.now + lim.grace
  }

  lemma {:induction false} TimersAhead(lim: Limits, steps: seq<Step>)
    requires lim.Positive() && Feasible(lim, steps)
    ensures TimerAhead(lim, Run(lim, steps))
  {
    if |steps| > 0 { TimersAhead(lim, Front(steps)); }
  }

  /** An update of the agent record by registration or message that was not rejected. */
  predicate Updates(st: Timed, step: Step) {
    match step
    case Register(at, tenant, backend) => Registered(st.slot, tenant, backend, at).Some?
    case Beat(_, _, _) => st.slot.agent.Some?
    case Touch(_, _, _) => st.slot.agent.Some?
    case _ => false
  }

  /******* Timeout bounds *******/

  predicate Pending(slot: Slot) {
    slot.timer.Some? && slot.timer.value.Heartbeat?
  }

  /** The slot at instant `to` if nothing happens but timers. */
  function Quiet(lim: Limits, slot: Slot, to: Time): Slot
    requires lim.Positive()
    decreases if slot.timer.None? || slot.timer.value.due > to then 0 else to - slot.timer.value.due + 1
  {
    if slot.timer.Some? && slot.timer.value.due <= to then Quiet(lim, Fired(lim, slot), to) else slot
  }

  /** When an agent that falls silent turns UNRESPONSIVE: at its timer, or one period later if the timer is too early. */
  function TurnsAt(lim: Limits, slot: Slot): Time
    requires Pending(slot) && slot.agent.Some?
  {
    var due := slot.timer.value.due;
    if due - slot.agent.value.lastSeen < lim.heartbeat then due + lim.heartbeat else due
  }

  lemma {:induction false} SilentAgent(lim: Limits, slot: Slot, u: Time)
    requires lim.Positive() && Pending(slot) && slot.agent.Some? && slot.agent.value.status.Connected()
    requires slot.agent.value.lastSeen <= slot.timer.value.due
    ensures Quiet(lim, slot, u).agent.Some?
    ensures Quiet(lim, slot, u).agent.value.status ==
      if u < TurnsAt(lim, slot) then slot.agent.value.status
      else if u < TurnsAt(lim, slot) + lim.heartbeat then Unresponsive else TimedOut
    decreases if slot.timer.value.due > u then 0 else u - slot.timer.value.due + 1
  {
    var a, due := slot.agent.value, slot.timer.value.due;
    if due <= u {
      if due - a.lastSeen < lim.heartbeat {
        SilentAgent(lim, Fired(lim, slot), u);
      } else {
        UnresponsiveAgent(lim, Fired(lim, slot), u);
      }
    }
  }

  lemma UnresponsiveAgent(lim: Limits, slot: Slot, u: Time)
    requires lim.Positive() && Pending(slot) && slot.agent.Some? && slot.agent.value.status.Unresponsive?
    requires slot.timer.value.due - slot.agent.value.lastSeen >= lim.heartbeat
    ensures Quiet(lim, slot, u).agent.Some?
    ensures Quiet(lim, slot, u).agent.value.status == if u < slot.timer.value.due then Unresponsive else TimedOut
  {
    if slot.timer.value.due <= u { assert Quiet(lim, Fired(lim, slot), u) == Fired(lim, slot); }
  }

  /** Without a pending heartbeat timer silence is never noticed. */
  lemma UnwatchedAgent(lim: Limits, slot: Slot, u: Time)
    requires lim.Positive() && !Pending(slot) && slot.agent.Some? && slot.agent.value.status.Connected()
    ensures Quiet(lim, slot, u).agent == slot.agent
  {
    if slot.timer.Some? && slot.timer.value.due <= u { assert Quiet(lim, Fired(lim, slot), u) == Fired(lim, slot); }
  }

  /**
   Timeout bounds. Let the last update of a connected agent be at `h`, in any
   run. If a heartbeat timer is then pending, the agent turns UNRESPONSIVE at one
   instant in (h + T - 1s, h + 2T] and TIMED_OUT one period later; otherwise it
   never does. After a registration or a heartbeat message a timer is pending;
   after any other message, only if one was pending before it.
   */
  lemma TimeoutBounds(lim: Limits, steps: seq<Step>, u: Time)
    requires lim.Positive() && Feasible(lim, steps) && |steps| > 0
    requires Updates(Run(lim, Front(steps)), Last(steps)) && Run(lim, steps).slot.agent.value.status.Connected()
    ensures var h, slot := Last(steps).at, Run(lim, steps).slot;
      && Quiet(lim, slot, u).agent.Some?
      && var status := Quiet(lim, slot, u).agent.value.status;
      && (Pending(slot) ==>
          && h + lim.heartbeat - SECOND < TurnsAt(lim, slot) <= h + 2 * lim.heartbeat
          && status == if u < TurnsAt(lim, slot) then slot.agent.value.status
                       else if u < TurnsAt(lim, slot) + lim.heartbeat then Unresponsive else TimedOut)
      && (!Pending(slot) ==> status == slot.agent.value.status)
      && (Pending(slot) <==> !Last(steps).Touch? || Pending(Run(lim, Front(steps)).slot))
  {
    TimersAhead(lim, steps);
    var slot := Run(lim, steps).slot;
    if Pending(slot) { SilentAgent(lim, slot, u); } else { UnwatchedAgent(lim, slot, u); }
  }

  /** A timed-out agent that then reports on a shard is RUNNING again, with nothing left to time it out. */
  lemma RevivedUnwatched(lim: Limits, tenant: TenantId, backend: string, x: ShardId, u: Time)
    requires lim.Positive()
    ensures var steps := [Register(0, tenant, backend), Fire, Fire, Touch(2 * lim.heartbeat, AgentStatus.Running, Some(x))];
      && Feasible(lim, steps) && !Pending(Run(lim, steps).slot)
      && Quiet(lim, Run(lim, steps).slot, u).agent.Some? && Quiet(lim, Run(lim, steps).slot, u).agent.value.status == AgentStatus.Running
  {
    var r, t := Register(0, tenant, backend), Touch(2 * lim.heartbeat, AgentStatus.Running, Some(x));
    var s1, s2, s3, s4 := [r], [r, Fire], [r, Fire, Fire], [r, Fire, Fire, t];
    var none: seq<Step> := [];
    assert Front(s1) == none && Front(s2) == s1 && Front(s3) == s2 && Front(s4) == s3;
    assert Feasible(lim, none) && Run(lim, none) == START;
    assert Feasible(lim, s1);
    assert Run(lim, s1) == Timed(Slot(Some(Agent(tenant, backend, Idle, UNSET, None, 0)), Some(Heartbeat(lim.heartbeat))), 0);
    assert Feasible(lim, s2) && Run(lim, s2).slot.agent.value.status == Unresponsive;
    assert Feasible(lim, s3) && Run(lim, s3).slot.agent.value.status == TimedOut && Run(lim, s3).slot.timer.None?;
    assert Feasible(lim, s4);
    UnwatchedAgent(lim, Run(lim, s4).slot, u);
  }

  /**
   A disconnected agent is given the grace period, no more and no less: it turns
   TIMED_OUT, without a shard, exactly one grace period after its stream ended.
   */
  lemma GraceExact(lim: Limits, st: Timed, at: Time, u: Time)
    requires lim.Positive() && Can(st, Close(at)) && st.slot.agent.Some?
    ensures var slot := Quiet(lim, Next(lim, st, Close(at)).slot, u);
      && slot.agent.Some?
      && slot.agent.value.status == (if u < at + lim.grace then Disconnected else TimedOut)
      && slot.agent.value.current == if u < at + lim.grace then st.slot.agent.value.current else None
  {
    var closed := Next(lim, st, Close(at)).slot;
    if at + lim.grace <= u { assert Quiet(lim, Fired(lim, closed), u) == Fired(lim, closed); }
  }

  /**
   Registering again within the grace period: the same identity is accepted, a
   RUNNING agent comes back RUNNING on its shard and an idle or lost one IDLE.
   Another identity is refused and changes nothing. What the stream handler then
   does with a RUNNING agent is `HandleReconnectedAgent` in `Control`.
   */
  lemma ReconnectRestores(lim: Limits, st: Timed, at: Time, back: Time, tenant: TenantId, backend: string)
    requires lim.Positive() && Can(st, Close(at)) && st.slot.agent.Some? && at <= back < at + lim.grace
    ensures var a, closed := st.slot.agent.value, Next(lim, st, Close(at));
      && Can(closed, Register(back, tenant, backend))
      && var slot := Next(lim, closed, Register(back, tenant, backend)).slot;
      if a.tenant == tenant && a.backend == backend then
        && slot.agent.Some? && slot.agent.value.current == a.current && Pending(slot)
        && slot.agent.value.status == if a.status.Connected() && a.status != UNSET then a.status else Idle
      else slot == closed.slot
  {
  }

  /** An agent id stays bound to the tenant and backend it first registered with. */
  lemma {:induction false} IdentityBound(lim: Limits, steps: seq<Step>, k: nat)
    requires Feasible(lim, steps) && k <= |steps|
    ensures Feasible(lim, steps[..k])
    ensures var a, b := Run(lim, steps[..k]).slot.agent, Run(lim, steps).slot.agent;
      a.Some? ==> b.Some? && b.value.tenant == a.value.tenant && b.value.backend == a.value.backend
  {
    if k == |steps| {
      assert steps[..k] == steps;
    } else {
      IdentityBound(lim, Front(steps), k);
      assert Front(steps)[..k] == steps[..k];
    }
  }

  /** IDLE or RUNNING: a control stream is open. */
  predicate IsLive(slot: Slot) {
    slot.agent.Some? && (slot.agent.value.status == Idle || slot.agent.value.status == AgentStatus.Running)
  }

  /** Steps after which an agent may be neither IDLE nor RUNNING: the stream's end, a timer, a message with another status. */
  predicate MayBreak(step: Step) {
    match step
    case Register(_, _, _) => false
    case Beat(_, status, _) => status != Idle && status != AgentStatus.Running
    case Touch(_, status, _) => status != Idle && status != AgentStatus.Running
    case _ => true
  }

  lemma LiveStays(lim: Limits, st: Timed, step: Step)
    requires Can(st, step) && IsLive(st.slot) && !MayBreak(step)
    ensures IsLive(Next(lim, st, step).slot)
    ensures step.Register? ==> Next(lim, st, step).slot == st.slot
  {
  }

  lemma {:induction false} LiveUntilBroken(lim: Limits, steps: seq<Step>, i: nat)
    requires Feasible(lim, steps) && i <= |steps| && Feasible(lim, steps[..i]) && IsLive(Run(lim, steps[..i]).slot)
    requires forall m :: i <= m < |steps| ==> !MayBreak(steps[m])
    ensures IsLive(Run(lim, steps).slot)
  {
    if i == |steps| {
      assert steps[..i] == steps;
    } else {
      assert Front(steps)[..i] == steps[..i];
      LiveUntilBroken(lim, Front(steps), i);
      LiveStays(lim, Run(lim, Front(steps)), Last(steps));
    }
  }

  /**
   One live stream per agent id: once an agent is IDLE or RUNNING, then until its
   stream ends, a timer fires or a message reports another status, every further
   registration of that id, by whomever, is refused and changes nothing.
   */
  lemma OneLiveStream(lim: Limits, steps: seq<Step>, i: nat)
    requires Feasible(lim, steps) && i < |steps| && Feasible(lim, steps[..i]) && IsLive(Run(lim, steps[..i]).slot)
    requires (forall m :: i <= m < |steps| ==> !MayBreak(steps[m])) && Last(steps).Register?
    ensures Run(lim, steps).slot == Run(lim, Front(steps)).slot
  {
    assert Front(steps)[..i] == steps[..i];
    LiveUntilBroken(lim, Front(steps), i);
    LiveStays(lim, Run(lim, Front(steps)), Last(steps));
  }

  /** A registration is accepted exactly for an unknown id, or the same identity that is neither IDLE nor RUNNING. */
  lemma RegisteredMeans(slot: Slot, tenant: TenantId, backend: string, now: Time)
    ensures Registered(slot, tenant, backend, now).Some? <==>
      slot.agent.None? || (slot.agent.value.tenant == tenant && slot.agent.value.backend == backend && !IsLive(slot))
  {
  }

  /******* The registry *******/

  class Registry {
    const lim: Limits
    var agents: map<AgentId, Agent>
    var timers: map<AgentId, Timer>

    constructor (lim: Limits)
      ensures this.lim == lim && agents == map[] && timers == map[]
    {
      this.lim := lim;
      agents, timers := map[], map[];
    }

    function At(id: AgentId): Slot
      reads this
    {
      Slot(if id in agents then Some(agents[id]) else None, if id in timers then Some(timers[id]) else None)
    }

    twostate predicate OthersKept(id: AgentId)
      reads this
    {
      forall o :: o != id ==> At(o) == old(At(o))
    }

    method RegisterAgent(id: AgentId, tenant: TenantId, backend: string, now: Time) returns (ok: bool)
      modifies this`agents
      ensures var r := Registered(old(At(id)), tenant, backend, now); ok == r.Some? && At(id) == if ok then r.value else old(At(id))
      ensures OthersKept(id)
      ensures ok <==>
        || id !in old(agents)
        || (&& old(agents)[id].tenant == tenant && old(agents)[id].backend == backend
            && old(agents)[id].status != Idle && old(agents)[id].status != AgentStatus.Running)
      ensures !ok ==> agents == old(agents)
      ensures ok ==> id in agents && agents == old(agents)[id := agents[id]]
      ensures ok && (id !in old(agents) || old(agents)[id].status.Other?) ==>
        agents[id] == Agent(tenant, backend, Idle, Other(""), None, now / 1_000_000_000 * 1_000_000_000)
      ensures ok && id in old(agents) && !old(agents)[id].status.Other? ==>
        var before := old(agents)[id].before;
        agents[id] == Agent(tenant, backend,
                            if before == AgentStatus.Running || (before.Other? && before.name != "") then before else Idle,
                            Other(""), old(agents)[id].current, now / 1_000_000_000 * 1_000_000_000)
    {
      var agent := Agent(tenant, backend, Idle, UNSET, None, Whole(now));
      if id in agents {
        var existing := agents[id];
        if existing.tenant != tenant || existing.backend != backend { return false; }
        match existing.status
        case Disconnected => agent := agent.(status := Recovery(existing.before), current := existing.current);
        case TimedOut => agent := agent.(status := Recovery(existing.before), current := existing.current);
        case Unresponsive => agent := agent.(status := Recovery(existing.before), current := existing.current);
        case Running => return false;
        case Idle => return false;
        case Other(_) =>
      }
      agents := agents[id := agent];
      return true;
    }

    method HeartbeatAgent(id: AgentId, status: AgentStatus, current: Option<ShardId>, now: Time) returns (ok: bool)
      modifies this`agents
      ensures var r := Touched(old(At(id)), status, current, now); ok == r.Some? && At(id) == if ok then r.value else old(At(id))
      ensures OthersKept(id)
      ensures agents.Keys == old(agents).Keys && (ok <==> id in old(agents))
      ensures agents == if ok then old(agents)[id := old(agents)[id].(status := status, current := current,
                                                                      lastSeen := now / 1_000_000_000 * 1_000_000_000)] else old(agents)
    {
      if id !in agents { return false; }
      agents := agents[id := agents[id].(status := status, current := current, lastSeen := Whole(now))];
      return true;
    }

    method DisconnectAgent(id: AgentId)
      modifies this`agents
      ensures At(id) == Hung(old(At(id))) && OthersKept(id)
      ensures id !in old(agents) ==> agents == old(agents)
      ensures id in old(agents) ==>
        var a := old(agents)[id];
        agents == old(agents)[id := a.(status := Disconnected,
          before := if a.status == AgentStatus.Running || (a.status.Other? && a.status.name != "") then a.status else Idle)]
    {
      if id in agents {
        var agent := agents[id];
        agents := agents[id := agent.(status := Disconnected, before := Recovery(agent.status))];
      }
    }

    method ResetHeartbeat(id: AgentId, now: Time)
      modifies this`timers
      ensures At(id) == Armed(lim, old(At(id)), now) && OthersKept(id) && timers == old(timers)[id := Heartbeat(now + lim.heartbeat)]
    {
      timers := timers[id := Heartbeat(now + lim.heartbeat)];
    }

    method BeginGrace(id: AgentId, now: Time)
      modifies this`timers
      ensures At(id) == Graced(lim, old(At(id)), now) && OthersKept(id) && timers == old(timers)[id := Grace(now + lim.grace)]
    {
      timers := timers[id := Grace(now + lim.grace)];
    }

    method CancelTimer(id: AgentId)
      modifies this`timers
      ensures At(id) == old(At(id)).(timer := None) && OthersKept(id) && timers == old(timers) - {id}
    {
      timers := timers - {id};
    }

    /** The heartbeat timer's callback; `timedOut` says whether the timeout callback is due. */
    method OnHeartbeatTimeout(id: AgentId) returns (timedOut: bool)
      requires id in timers && timers[id].Heartbeat?
      modifies this
      ensures At(id) == Fired(lim, old(At(id))) && OthersKept(id)
      ensures timedOut <==> id in agents && old(agents)[id].status.Unresponsive? && agents[id].status.TimedOut?
      ensures var due := old(timers)[id].due;
        if id !in old(agents) then agents == old(agents) && timers == old(timers) - {id}
        else
          var a := old(agents)[id];
          if due - a.lastSeen < lim.heartbeat then agents == old(agents) && timers == old(timers)[id := Heartbeat(due + lim.heartbeat)]
          else if a.status == Disconnected || a.status == TimedOut then agents == old(agents) && timers == old(timers) - {id}
          else if a.status == Unresponsive then
            agents == old(agents)[id := a.(status := TimedOut, current := None)] && timers == old(timers) - {id}
          else agents == old(agents)[id := a.(status := Unresponsive)] && timers == old(timers)[id := Heartbeat(due + lim.heartbeat)]
    {
      var now := timers[id].due;
      CancelTimer(id);
      if id !in agents { return false; }
      var agent := agents[id];
      if now - agent.lastSeen < lim.heartbeat {
        ResetHeartbeat(id, now);
        return false;
      }
      match agent.status
      case Disconnected => return false;
      case TimedOut => return false;
      case Unresponsive =>
        agents := agents[id := agent.(status := TimedOut, current := None)];
        return true;
      case _ =>
        agents := agents[id := agent.(status := Unresponsive)];
        ResetHeartbeat(id, now);
        return false;
    }

    /** The grace timer's callback, with the marking its timeout callback ends in; `shard` is what the callback rolls back. */
    method OnGraceExpired(id: AgentId) returns (shard: Option<ShardId>)
      requires id in timers && timers[id].Grace?
      modifies this
      ensures At(id) == Fired(lim, old(At(id))) && OthersKept(id)
      ensures shard == if id in old(agents) && old(agents)[id].status.Disconnected? then old(agents)[id].current else None
      ensures timers == old(timers) - {id}
      ensures agents ==
        if id in old(agents) && old(agents)[id].status == Disconnected
        then old(agents)[id := old(agents)[id].(status := TimedOut, current := None, lastSeen := old(timers)[id].due / 1_000_000_000 * 1_000_000_000)]
        else old(agents)
    {
      var now := timers[id].due;
      CancelTimer(id);
      if id !in agents || !agents[id].status.Disconnected? { return None; }
      shard := agents[id].current;
      var _ := HeartbeatAgent(id, TimedOut, None, now);
    }

    /** Accepting a control stream, and its end. */
    method OpenStream(id: AgentId, tenant: TenantId, backend: string, now: Time) returns (ok: bool)
      modifies this
      ensures var r := Registered(old(At(id)), tenant, backend, now);
        ok == r.Some? && At(id) == if ok then Armed(lim, r.value, now) else old(At(id))
      ensures OthersKept(id)
      ensures ok <==>
        || id !in old(agents)
        || (&& old(agents)[id].tenant == tenant && old(agents)[id].backend == backend
            && old(agents)[id].status != Idle && old(agents)[id].status != AgentStatus.Running)
      ensures timers == if ok then old(timers)[id := Heartbeat(now + lim.heartbeat)] else old(timers)
    {
      ok := RegisterAgent(id, tenant, backend, now);
      if ok {
        CancelTimer(id);
        ResetHeartbeat(id, now);
      }
    }

    method CloseStream(id: AgentId, now: Time)
      modifies this
      ensures At(id) == Hung(Graced(lim, old(At(id)), now)) && OthersKept(id)
      ensures timers == old(timers)[id := Grace(now + lim.grace)] && (id in old(agents) ==> id in agents && agents[id].status == Disconnected)
    {
      BeginGrace(id, now);
      DisconnectAgent(id);
    }
  }
}
