/**
 The agent's side of the control stream: one session of the callback loop.

 A session has two FIFO channels, one status slot, the pending-result slot it
 shares with executions that earlier sessions left behind, and the executions it
 started itself. The server is any party that acknowledges a result only after
 receiving it. `AgentLoop` performs the agent's steps on its fields.
 */
module AgentSession {
  import opened Rows
  import opened Ledger

  datatype Output = Output(shard: ShardId, key: string, sha: string)

  datatype Up = Ready(output: Output) | ShardFailed(failed: ShardId) | Accepted(accepted: ShardId) | Started(started: ShardId)
              | Beat(busy: bool, current: Option<ShardId>)

  datatype Down = Assign(shard: ShardId) | Stored(stored: ShardId) | CancelShard(cancelled: ShardId) | Stop

  /** Executing, or about to send the result, or about to clear the status after a failure. */
  datatype Exec = Executing(shard: ShardId) | Sending(output: Output) | Failing(shard: ShardId)

  function ShardOf(e: Exec): ShardId {
    if e.Sending? then e.output.shard else e.shard
  }

  type ExecId = nat

  datatype Session = Session(
    pending: Option<Output>,
    slot: Option<ShardId>,
    execs: map<ExecId, Exec>,
    up: seq<Up>,
    down: seq<Down>,
    open: bool)

  /**
   Connecting reads the pending slot for the initial status and then takes it.
   `slip` is a result an earlier session's execution stores between the two.
   */
  function Connect(pending: Option<Output>, slip: Option<Output>): Session {
    var taken := if pending.Some? then pending else slip;
    Session(None, if pending.Some? then Some(pending.value.shard) else None, map[],
            if taken.Some? then [Ready(taken.value)] else [], [], true)
  }

  /******* Steps *******/

  datatype Action =
    | ServerTakes(ack: bool)
    | ServerSends(message: Down)
    | AgentReads(id: ExecId)
    | Heartbeat
    | Ends(id: ExecId, result: Option<Output>)
    | Settles(id: ExecId)
    | OldReady(output: Output)

  predicate Can(s: Session, a: Action) {
    match a
    case ServerTakes(_) => |s.up| > 0
    case ServerSends(m) => !m.Stored?
    case AgentReads(id) => s.open && |s.down| > 0 && id !in s.execs
    case Heartbeat => s.open
    case Ends(id, result) => id in s.execs && s.execs[id].Executing? && (result.Some? ==> result.value.shard == s.execs[id].shard)
    case Settles(id) => id in s.execs && !s.execs[id].Executing?
    case OldReady(_) => true
  }

  /** The status is reset only if it is still about this shard. */
  function Cleared(slot: Option<ShardId>, x: ShardId): Option<ShardId> {
    if slot == Some(x) then None else slot
  }

  /** The loop's reaction to a server message; a new execution gets `id`. */
  function Handle(s: Session, m: Down, id: ExecId): Session {
    match m
    case Assign(x) =>
      if s.pending.Some? || s.slot.Some? then s.(open := false)
      else s.(slot := Some(x), execs := s.execs[id := Executing(x)], up := s.up + [Accepted(x), Started(x)])
    case Stored(x) =>
      s.(pending := if s.pending.Some? && s.pending.value.shard == x then None else s.pending, slot := Cleared(s.slot, x))
    case CancelShard(_) => s
    case Stop => s.(open := false)
  }

  /** An execution ends, with its output uploaded or failed. */
  function Ended(s: Session, id: ExecId, result: Option<Output>): Session
    requires id in s.execs
  {
    if result.Some? && s.pending.None? then s.(pending := result, execs := s.execs[id := Sending(result.value)])
    else s.(execs := s.execs[id := Failing(ShardOf(s.execs[id]))], up := s.up + [ShardFailed(ShardOf(s.execs[id]))])
  }

  function Settled(s: Session, id: ExecId): Session
    requires id in s.execs
  {
    var e := s.execs[id];
    if e.Sending? then s.(execs := s.execs - {id}, up := s.up + [Ready(e.output)])
    else s.(execs := s.execs - {id}, slot := Cleared(s.slot, ShardOf(e)))
  }

  function Next(s: Session, a: Action): Session
    requires Can(s, a)
  {
    match a
    case ServerTakes(ack) =>
      var rest := s.(up := s.up[1..]);
      if s.up[0].Ready? && ack then rest.(down := s.down + [Stored(s.up[0].output.shard)]) else rest
    case ServerSends(m) => s.(down := s.down + [m])
    case AgentReads(id) => Handle(s.(down := s.down[1..]), s.down[0], id)
    case Heartbeat => s.(up := s.up + [Beat(s.slot.Some?, s.slot)])
    case Ends(id, result) => Ended(s, id, result)
    case Settles(id) => Settled(s, id)
    case OldReady(output) => if s.pending.None? then s.(pending := Some(output)) else s
  }

  ghost predicate Feasible(start: Session, actions: seq<Action>)
    decreases |actions|, 0
  {
    |actions| == 0 || (Feasible(start, Front(actions)) && Can(Run(start, Front(actions)), Last(actions)))
  }

  ghost function Run(start: Session, actions: seq<Action>): Session
    requires Feasible(start, actions)
    decreases |actions|, 1
  {
    if |actions| == 0 then start else Next(Run(start, Front(actions)), Last(actions))
  }

  /******* One token *******/

  function Readies(up: seq<Up>): nat {
    if |up| == 0 then 0 else (if up[0].Ready? then 1 else 0) + Readies(up[1..])
  }

  function Acks(down: seq<Down>): nat {
    if |down| == 0 then 0 else (if down[0].Stored? then 1 else 0) + Acks(down[1..])
  }

  lemma {:induction false} ReadiesMore(up: seq<Up>, more: seq<Up>)
    ensures Readies(up + more) == Readies(up) + Readies(more)
  {
    if |up| == 0 {
      assert up + more == more;
    } else {
      ReadiesMore(up[1..], more);
      assert (up + more)[1..] == up[1..] + more;
    }
  }

  lemma {:induction false} AcksMore(down: seq<Down>, m: Down)
    ensures Acks(down + [m]) == Acks(down) + if m.Stored? then 1 else 0
  {
    if |down| > 0 {
      AcksMore(down[1..], m);
      assert (down + [m])[1..] == down[1..] + [m];
    }
  }

  /** Unfinished executions, results under way and acknowledgements under way. */
  function Tokens(s: Session): nat {
    |s.execs| + Readies(s.up) + Acks(s.down)
  }

  /** Each of them is about the shard in the status slot. */
  ghost predicate Anchored(s: Session) {
    && (forall id :: id in s.execs ==> s.slot == Some(ShardOf(s.execs[id])))
    && (forall m :: m in s.up && m.Ready? ==> s.slot == Some(m.output.shard))
    && (forall m :: m in s.down && m.Stored? ==> s.slot == Some(m.stored))
  }

  ghost predicate OneToken(s: Session) {
    Tokens(s) <= 1 && Anchored(s)
  }

  lemma {:induction false} ReadiesSeen(up: seq<Up>)
    ensures Readies(up) > 0 <==> exists m :: m in up && m.Ready?
  {
    if |up| > 0 {
      ReadiesSeen(up[1..]);
      assert forall m :: m in up <==> m == up[0] || m in up[1..];
    }
  }

  lemma {:induction false} AcksSeen(down: seq<Down>)
    ensures Acks(down) > 0 <==> exists m :: m in down && m.Stored?
  {
    if |down| > 0 {
      AcksSeen(down[1..]);
      assert forall m :: m in down <==> m == down[0] || m in down[1..];
    }
  }

  lemma NoneLeft(s: Session)
    requires Tokens(s) == 0
    ensures Anchored(s)
  {
    ReadiesSeen(s.up);
    AcksSeen(s.down);
  }

  lemma ServerTakesOne(s: Session, ack: bool)
    requires OneToken(s) && |s.up| > 0
    ensures OneToken(Next(s, ServerTakes(ack)))
  {
    if s.up[0].Ready? { AcksMore(s.down, Stored(s.up[0].output.shard)); }
  }

  lemma AgentReadsOne(s: Session, id: ExecId)
    requires OneToken(s) && Can(s, AgentReads(id))
    ensures OneToken(Next(s, AgentReads(id)))
  {
    var m, s' := s.down[0], Next(s, AgentReads(id));
    match m
    case Assign(x) =>
      if s.pending.None? && s.slot.None? {
        ReadiesMore(s.up, [Accepted(x), Started(x)]);
        NothingUnderWay(s);
        NoneLeft(s.(slot := Some(x)));
        ReadiesSeen([Accepted(x), Started(x)]);
      }
    case Stored(x) =>
      assert Tokens(s') == 0;
      NoneLeft(s');
    case _ =>
  }

  /** With an empty slot nothing is under way. */
  lemma NothingUnderWay(s: Session)
    requires OneToken(s) && s.slot.None?
    ensures Tokens(s) == 0
  {
    ReadiesSeen(s.up);
    AcksSeen(s.down);
    assert s.execs.Keys == {};
  }

  lemma EndsOne(s: Session, id: ExecId, result: Option<Output>)
    requires OneToken(s) && Can(s, Ends(id, result))
    ensures OneToken(Next(s, Ends(id, result)))
  {
    var s', x := Next(s, Ends(id, result)), ShardOf(s.execs[id]);
    assert s'.execs.Keys == s.execs.Keys;
    ReadiesMore(s.up, [ShardFailed(x)]);
  }

  lemma SettlesOne(s: Session, id: ExecId)
    requires OneToken(s) && Can(s, Settles(id))
    ensures OneToken(Next(s, Settles(id)))
  {
    var s', e := Next(s, Settles(id)), s.execs[id];
    assert s'.execs.Keys == s.execs.Keys - {id};
    if e.Sending? {
      ReadiesMore(s.up, [Ready(e.output)]);
      assert Readies(s.up) == 0 && |s'.execs| == 0;
      OnlyReady(s.up, e.output, s'.up, s');
    } else {
      NoneLeft(s');
    }
  }

  lemma OnlyReady(up: seq<Up>, output: Output, up': seq<Up>, s': Session)
    requires Readies(up) == 0 && up' == up + [Ready(output)] && s'.up == up' && s'.execs == map[] && Acks(s'.down) == 0
    requires s'.slot == Some(output.shard)
    ensures Anchored(s')
  {
    ReadiesSeen(up);
    AcksSeen(s'.down);
  }

  lemma TokenStep(s: Session, a: Action)
    requires OneToken(s) && Can(s, a)
    ensures OneToken(Next(s, a))
  {
    match a
    case ServerTakes(ack) => ServerTakesOne(s, ack);
    case ServerSends(m) => AcksMore(s.down, m);
    case AgentReads(id) => AgentReadsOne(s, id);
    case Heartbeat => ReadiesMore(s.up, [Beat(s.slot.Some?, s.slot)]);
    case Ends(id, result) => EndsOne(s, id, result);
    case Settles(id) => SettlesOne(s, id);
    case OldReady(_) =>
  }

  lemma {:induction false} TokenAlways(start: Session, actions: seq<Action>)
    requires OneToken(start) && Feasible(start, actions)
    ensures OneToken(Run(start, actions))
  {
    if |actions| > 0 {
      TokenAlways(start, Front(actions));
      TokenStep(Run(start, Front(actions)), Last(actions));
    }
  }

  /**
   Session safety. If reading the pending slot and taking it are one step, then in
   every run the session has at most one unfinished execution; while a result or
   an acknowledgement for X is under way, X fills the status slot and nothing the
   session started is unfinished.
   */
  lemma SessionSafety(pending: Option<Output>, actions: seq<Action>)
    requires Feasible(Connect(pending, None), actions)
    ensures var s := Run(Connect(pending, None), actions);
      && |s.execs| <= 1
      && (forall m :: m in s.up && m.Ready? ==> s.slot == Some(m.output.shard) && s.execs == map[])
      && (forall m :: m in s.down && m.Stored? ==> s.slot == Some(m.stored) && s.execs == map[])
  {
    ConnectOne(pending, None);
    TokenAlways(Connect(pending, None), actions);
    var s := Run(Connect(pending, None), actions);
    ReadiesSeen(s.up);
    AcksSeen(s.down);
  }

  lemma ConnectOne(pending: Option<Output>, slip: Option<Output>)
    requires pending.Some? || slip.None?
    ensures OneToken(Connect(pending, slip))
  {
    var s := Connect(pending, slip);
    assert |s.execs| == 0 && Acks(s.down) == 0;
    if pending.Some? {
      ReadiesMore([], s.up);
      assert s.up == [Ready(pending.value)] && s.up[1..] == [];
    }
  }

  ghost predicate Safe(start: Session) {
    forall actions :: Feasible(start, actions) ==> |Run(start, actions).execs| <= 1
  }

  /**
   The exact condition: the session is safe in all runs unless a result was stored
   between reading an empty slot and taking it. Then the server may assign that
   very shard again, its late acknowledgement frees the status slot, and a second
   assignment is accepted.
   */
  lemma SafeExactly(pending: Option<Output>, slip: Option<Output>)
    ensures Safe(Connect(pending, slip)) <==> pending.Some? || slip.None?
  {
    var start := Connect(pending, slip);
    if pending.Some? || slip.None? {
      ConnectOne(pending, slip);
      forall actions | Feasible(start, actions) ensures |Run(start, actions).execs| <= 1 { TokenAlways(start, actions); }
    } else {
      var actions := TwoExecutions(slip.value);
      assert Feasible(start, actions);
    }
  }

  lemma Extend(start: Session, actions: seq<Action>, a: Action)
    requires Feasible(start, actions) && Can(Run(start, actions), a)
    ensures Feasible(start, actions + [a]) && Run(start, actions + [a]) == Next(Run(start, actions), a)
  {
    assert Front(actions + [a]) == actions && Last(actions + [a]) == a;
  }

  lemma TwoExecutions(z: Output) returns (actions: seq<Action>)
    ensures Feasible(Connect(None, Some(z)), actions) && |Run(Connect(None, Some(z)), actions).execs| == 2
  {
    var start, x := Connect(None, Some(z)), z.shard;
    actions := [];
    assert Run(start, actions) == Session(None, None, map[], [Ready(z)], [], true);
    Extend(start, actions, ServerSends(Assign(x)));
    actions := actions + [ServerSends(Assign(x))];
    Extend(start, actions, AgentReads(0));
    actions := actions + [AgentReads(0)];
    var one := Run(start, actions);
    assert one == Session(None, Some(x), map[0 := Executing(x)], [Ready(z), Accepted(x), Started(x)], [], true);
    Extend(start, actions, ServerTakes(true));
    actions := actions + [ServerTakes(true)];
    Extend(start, actions, AgentReads(1));
    actions := actions + [AgentReads(1)];
    assert Run(start, actions) == one.(slot := None, up := [Accepted(x), Started(x)]);
    Extend(start, actions, ServerSends(Assign(x + 1)));
    actions := actions + [ServerSends(Assign(x + 1))];
    Extend(start, actions, AgentReads(1));
    actions := actions + [AgentReads(1)];
    assert Run(start, actions).execs == map[0 := Executing(x), 1 := Executing(x + 1)];
    assert Run(start, actions).execs.Keys == {0, 1};
  }

  /******* The ordinary course of a shard *******/

  /**
   Reading the acknowledgement of `x`, in any run: the pending slot and the status
   slot are no longer about `x`; a result pending for another shard, a status about
   another shard and all executions stay.
   */
  lemma StoredClears(start: Session, actions: seq<Action>, id: ExecId)
    requires Feasible(start, actions) && Can(Run(start, actions), AgentReads(id)) && Run(start, actions).down[0].Stored?
    ensures var s, s' := Run(start, actions), Run(start, actions + [AgentReads(id)]); var x := s.down[0].stored;
      && (s'.pending.Some? ==> s'.pending.value.shard != x) && s'.slot != Some(x)
      && (s.pending.Some? && s.pending.value.shard != x ==> s'.pending == s.pending)
      && (s.slot != Some(x) ==> s'.slot == s.slot)
      && s'.execs == s.execs && s'.up == s.up && s'.down == s.down[1..] && s'.open
  {
    Extend(start, actions, AgentReads(id));
  }

  /** A pending result is dropped by nothing but the acknowledgement of its shard. */
  lemma {:induction false} ResultKept(start: Session, actions: seq<Action>, k: nat)
    requires Feasible(start, actions) && k <= |actions| && Feasible(start, actions[..k]) && Run(start, actions[..k]).pending.Some?
    ensures || Run(start, actions).pending == Run(start, actions[..k]).pending
            || exists m :: k <= m < |actions| && AcknowledgedAt(start, actions, m, Run(start, actions[..k]).pending.value.shard)
  {
    if k == |actions| {
      assert actions[..k] == actions;
    } else {
      var f := Front(actions);
      assert f[..k] == actions[..k];
      ResultKept(start, f, k);
      if m :| k <= m < |f| && AcknowledgedAt(start, f, m, Run(start, f[..k]).pending.value.shard) {
        assert f[..m] == actions[..m];
        assert AcknowledgedAt(start, actions, m, Run(start, actions[..k]).pending.value.shard);
      } else if Run(start, actions).pending != Run(start, f).pending {
        assert actions[..|f|] == f;
        assert AcknowledgedAt(start, actions, |f|, Run(start, actions[..k]).pending.value.shard);
      }
    }
  }

  /** The m-th action reads the acknowledgement of `x`. */
  ghost predicate AcknowledgedAt(start: Session, actions: seq<Action>, m: nat, x: ShardId) {
    && m < |actions| && actions[m].AgentReads? && Feasible(start, actions[..m])
    && |Run(start, actions[..m]).down| > 0 && Run(start, actions[..m]).down[0] == Stored(x)
  }

  /** Nothing pending, nothing in progress, nothing under way. */
  predicate AtRest(s: Session) {
    s.pending.None? && s.slot.None? && s.execs == map[] && s.up == [] && s.down == [] && s.open
  }

  /** The actions of one shard that succeeds: assigned, executed, its result sent, taken, acknowledged and read. */
  function Course(id: ExecId, output: Output): seq<Action> {
    [ServerSends(Assign(output.shard)), AgentReads(id), Ends(id, Some(output)), Settles(id),
     ServerTakes(true), ServerTakes(true), ServerTakes(true), AgentReads(id)]
  }

  /** From any run that is at rest, the shard is started and its very output is sent. */
  lemma CourseSends(start: Session, actions: seq<Action>, id: ExecId, output: Output)
    requires Feasible(start, actions) && AtRest(Run(start, actions))
    ensures var more := actions + [ServerSends(Assign(output.shard))] + [AgentReads(id)];
      && Feasible(start, more)
      && Run(start, more) == Session(None, Some(output.shard), map[id := Executing(output.shard)],
                                     [Accepted(output.shard), Started(output.shard)], [], true)
    ensures var more := actions + [ServerSends(Assign(output.shard))] + [AgentReads(id)] + [Ends(id, Some(output))] + [Settles(id)];
      && Feasible(start, more)
      && Run(start, more) == Session(Some(output), Some(output.shard), map[],
                                     [Accepted(output.shard), Started(output.shard), Ready(output)], [], true)
  {
    var x := output.shard;
    var a1 := actions + [ServerSends(Assign(x))];
    Extend(start, actions, ServerSends(Assign(x)));
    var a2 := a1 + [AgentReads(id)];
    Extend(start, a1, AgentReads(id));
    var s2 := Session(None, Some(x), map[id := Executing(x)], [Accepted(x), Started(x)], [], true);
    assert Run(start, a2) == s2;
    var a3 := a2 + [Ends(id, Some(output))];
    Extend(start, a2, Ends(id, Some(output)));
    assert Run(start, a3) == s2.(pending := Some(output), execs := map[id := Sending(output)]);
    Extend(start, a3, Settles(id));
  }

  /** The server takes the three messages and acknowledges the result. */
  lemma CourseAcknowledged(start: Session, actions: seq<Action>, id: ExecId, output: Output)
    requires Feasible(start, actions)
    requires Run(start, actions) == Session(Some(output), Some(output.shard), map[],
                                            [Accepted(output.shard), Started(output.shard), Ready(output)], [], true)
    ensures var more := actions + [ServerTakes(true)] + [ServerTakes(true)] + [ServerTakes(true)] + [AgentReads(id)];
      Feasible(start, more) && AtRest(Run(start, more))
  {
    var x := output.shard;
    var take := ServerTakes(true);
    Extend(start, actions, take);
    var a1 := actions + [take];
    assert Run(start, a1).up == [Started(x), Ready(output)];
    Extend(start, a1, take);
    var a2 := a1 + [take];
    assert Run(start, a2).up == [Ready(output)];
    Extend(start, a2, take);
    var a3 := a2 + [take];
    assert Run(start, a3) == Session(Some(output), Some(x), map[], [], [Stored(x)], true);
    Extend(start, a3, AgentReads(id));
  }

  /**
   The ordinary course, from any run that is at rest: the session is at rest again
   after it, so shard after shard is assigned, executed, sent once and acknowledged.
   */
  lemma CourseReturns(start: Session, actions: seq<Action>, id: ExecId, output: Output)
    requires Feasible(start, actions) && AtRest(Run(start, actions))
    ensures Feasible(start, actions + Course(id, output)) && AtRest(Run(start, actions + Course(id, output)))
  {
    var x, take := output.shard, ServerTakes(true);
    CourseSends(start, actions, id, output);
    var sent := actions + [ServerSends(Assign(x))] + [AgentReads(id)] + [Ends(id, Some(output))] + [Settles(id)];
    CourseAcknowledged(start, sent, id, output);
    assert actions + Course(id, output) == sent + [take] + [take] + [take] + [AgentReads(id)];
  }

  /** A shard that fails is reported, and the session can take the next one. */
  lemma FailureReturns(start: Session, actions: seq<Action>, id: ExecId, x: ShardId)
    requires Feasible(start, actions) && AtRest(Run(start, actions))
    ensures var more := actions + [ServerSends(Assign(x))] + [AgentReads(id)] + [Ends(id, None)] + [Settles(id)];
      && Feasible(start, more)
      && Run(start, more) == Session(None, None, map[], [Accepted(x), Started(x), ShardFailed(x)], [], true)
  {
    CourseSends(start, actions, id, Output(x, "", ""));
    var a2 := actions + [ServerSends(Assign(x))] + [AgentReads(id)];
    Extend(start, a2, Ends(id, None));
    Extend(start, a2 + [Ends(id, None)], Settles(id));
  }

  /** A session that connects with a pending result sends it again, and is at rest once it is acknowledged. */
  lemma ReconnectResends(output: Output, id: ExecId)
    ensures var start, more := Connect(Some(output), None), [ServerTakes(true)] + [AgentReads(id)];
      && start.up == [Ready(output)] && start.slot == Some(output.shard)
      && Feasible(start, more) && AtRest(Run(start, more))
  {
    var start, none: seq<Action> := Connect(Some(output), None), [];
    assert Run(start, none) == start;
    Extend(start, none, ServerTakes(true));
    assert none + [ServerTakes(true)] == [ServerTakes(true)];
    assert Run(start, [ServerTakes(true)]) == Session(None, Some(output.shard), map[], [], [Stored(output.shard)], true);
    Extend(start, [ServerTakes(true)], AgentReads(id));
  }

  /******* The agent's objects *******/

  class PendingResult {
    var shard: Option<ShardId>
    var key: string
    var sha: string

    constructor ()
      ensures View() == None
    {
      shard, key, sha := None, "", "";
    }

    function View(): Option<Output>
      reads this
    {
      if shard.Some? then Some(Output(shard.value, key, sha)) else None
    }

    /** A second result is refused, the first one kept. */
    method SetReady(output: Output) returns (ok: bool)
      modifies this
      ensures ok == old(View()).None? && View() == if ok then Some(output) else old(View())
    {
      if shard.Some? { return false; }
      shard, key, sha := Some(output.shard), output.key, output.sha;
      return true;
    }

    method Take() returns (r: Option<Output>)
      modifies this
      ensures r == old(View()) && View() == None
    {
      r := View();
      if shard.Some? { shard, key, sha := None, "", ""; }
    }

    method MarkStored(x: ShardId) returns (ok: bool)
      modifies this
      ensures ok == (old(View()).Some? && old(View()).value.shard == x) && View() == if ok then None else old(View())
    {
      if shard != Some(x) { return false; }
      shard, key, sha := None, "", "";
      return true;
    }
  }

  class AgentLoop {
    const pending: PendingResult
    var busy: bool
    var slot: Option<ShardId>
    var execs: map<ExecId, Exec>
    var up: seq<Up>
    var open: bool

    ghost predicate Valid()
      reads this
    {
      busy <==> slot.Some?
    }

    /** The session as the agent sees it; messages from the server arrive as arguments. */
    function State(): Session
      reads this, pending
    {
      Session(pending.View(), slot, execs, up, [], open)
    }

    /** Connecting, with nobody storing a result in between. */
    constructor (pending: PendingResult)
      modifies pending
      ensures this.pending == pending && Valid() && State() == Connect(old(pending.View()), None)
      ensures pending.shard.None? && slot == old(pending.shard) && execs == map[] && open
      ensures up == if old(pending.shard).Some? then [Ready(Output(old(pending.shard).value, old(pending.key), old(pending.sha)))] else []
    {
      this.pending := pending;
      busy, slot := pending.shard.Some?, pending.shard;
      execs, up, open := map[], [], true;
      new;
      var taken := pending.Take();
      if taken.Some? { up := [Ready(taken.value)]; }
    }

    method SetStatusIfCurrentShard(expected: ShardId, nextBusy: bool, next: Option<ShardId>)
      modifies this`busy, this`slot
      ensures busy == (if old(slot) == Some(expected) then nextBusy else old(busy))
      ensures slot == if old(slot) == Some(expected) then next else old(slot)
    {
      if slot == Some(expected) { busy, slot := nextBusy, next; }
    }

    method OnMessage(m: Down, id: ExecId)
      requires Valid() && open && id !in execs
      modifies this, pending
      ensures Valid() && State() == Handle(old(State()), m, id)
      ensures m.Assign? && old(slot).None? && old(pending.shard).None? ==>
        && open && busy && slot == Some(m.shard) && execs == old(execs)[id := Executing(m.shard)] && pending.shard.None?
        && up == old(up) + [Accepted(m.shard), Started(m.shard)]
      ensures m.Assign? && (old(slot).Some? || old(pending.shard).Some?) ==>
        !open && slot == old(slot) && execs == old(execs) && up == old(up) && pending.shard == old(pending.shard)
      ensures m.Stored? ==>
        && pending.shard == (if old(pending.shard) == Some(m.stored) then None else old(pending.shard))
        && slot == (if old(slot) == Some(m.stored) then None else old(slot)) && open && execs == old(execs) && up == old(up)
      ensures m.CancelShard? || m.Stop? ==>
        (open <==> m.CancelShard?) && slot == old(slot) && execs == old(execs) && up == old(up) && pending.shard == old(pending.shard)
    {
      match m
      case Assign(x) =>
        if pending.shard.Some? || slot.Some? {
          open := false;
          return;
        }
        busy, slot := true, Some(x);
        up := up + [Accepted(x)];
        up := up + [Started(x)];
        execs := execs[id := Executing(x)];
        assert old(up) + [Accepted(x)] + [Started(x)] == old(up) + [Accepted(x), Started(x)];
      case CancelShard(_) =>
      case Stop => open := false;
      case Stored(x) =>
        var _ := pending.MarkStored(x);
        SetStatusIfCurrentShard(x, false, None);
    }

    method OnTick()
      requires Valid() && open
      modifies this`up
      ensures State() == Next(old(State()), Heartbeat) && up == old(up) + [Beat(old(slot).Some?, old(slot))]
    {
      up := up + [Beat(busy, slot)];
    }

    method OnEnd(id: ExecId, result: Option<Output>)
      requires Valid() && Can(State(), Ends(id, result))
      modifies this, pending
      ensures Valid() && State() == Next(old(State()), Ends(id, result))
      ensures slot == old(slot) && open == old(open)
      ensures result.Some? && old(pending.shard).None? ==>
        && pending.shard == Some(result.value.shard) && pending.key == result.value.key && pending.sha == result.value.sha
        && up == old(up) && execs == old(execs)[id := Sending(result.value)]
      ensures result.None? || old(pending.shard).Some? ==>
        && pending.shard == old(pending.shard) && pending.key == old(pending.key) && pending.sha == old(pending.sha)
        && up == old(up) + [ShardFailed(old(execs)[id].shard)] && execs == old(execs)[id := Failing(old(execs)[id].shard)]
    {
      var x := execs[id].shard;
      var ready := false;
      if result.Some? { ready := pending.SetReady(result.value); }
      if ready {
        execs := execs[id := Sending(result.value)];
      } else {
        up := up + [ShardFailed(x)];
        execs := execs[id := Failing(x)];
      }
    }

    method OnSettle(id: ExecId)
      requires Valid() && Can(State(), Settles(id))
      modifies this
      ensures Valid() && State() == Next(old(State()), Settles(id))
      ensures execs == old(execs) - {id} && open == old(open)
      ensures old(execs)[id].Sending? ==> up == old(up) + [Ready(old(execs)[id].output)] && slot == old(slot)
      ensures old(execs)[id].Failing? ==> up == old(up) && slot == if old(slot) == Some(old(execs)[id].shard) then None else old(slot)
    {
      match execs[id] {
        case Sending(output) => up := up + [Ready(output)];
        case Failing(x) => SetStatusIfCurrentShard(x, false, None);
      }
      execs := execs - {id};
    }
  }
}
