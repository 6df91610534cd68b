/**
 The rows the orchestrator keeps: tenants, tasks and task shards, with the
 status vocabularies of internal/model.

 A UUID is a natural number. `assigned_agent_id` is an `Option`: the database
 writes both NULL and the empty string for "nobody", and reads them alike.
 */
module Rows {

  datatype Option<+T> = None | Some(value: T)

  type Time = int
  type TenantId = nat
  type TaskId = nat
  type ShardId = nat
  type AgentId = string

  datatype TaskStatus =
    | Pending | WaitingForAgents | Queued | Running
    | Succeeded | Failed | Cancelled
  {
    predicate Terminal() {
      Succeeded? || Failed? || Cancelled?
    }

    /** The task statuses a lease may take a shard from. */
    predicate Leasable() {
      WaitingForAgents? || Queued? || Running?
    }

    /** Progress order of the documented lifecycle. */
    function Rank(): nat {
      match this
      case Pending => 0
      case WaitingForAgents => 1
      case Queued => 2
      case Running => 3
      case _ => 4
    }
  }

  datatype ShardStatus = Queued | Leased | Running | Succeeded | Failed | Cancelled
  {
    predicate Terminal() {
      Succeeded? || Failed? || Cancelled?
    }

    /** An agent is responsible for the shard. */
    predicate Held() {
      Leased? || Running?
    }
  }

  datatype Tenant = Tenant(backend: string, maxAgents: int)

  datatype Task = Task(
    tenant: TenantId,
    status: TaskStatus,
    hookUrl: string,
    shardCount: nat,
    createdAt: Time,
    startedAt: Option<Time>,
    finishedAt: Option<Time>,
    lastError: string)

  datatype Shard = Shard(
    task: TaskId,
    script: string,
    status: ShardStatus,
    agent: Option<AgentId>,
    outputKey: string,
    outputSha: string,
    startedAt: Option<Time>,
    finishedAt: Option<Time>,
    lastError: string)

  datatype Tables = Tables(
    tenants: map<TenantId, Tenant>,
    tasks: map<TaskId, Task>,
    shards: map<ShardId, Shard>)

  const EMPTY := Tables(map[], map[], map[])

  predicate IsShardOf(db: Tables, x: ShardId, t: TaskId) {
    x in db.shards && db.shards[x].task == t
  }

  /** The shards of `t` some agent is responsible for. */
  function HeldShards(db: Tables, t: TaskId): set<ShardId> {
    set x | x in db.shards && db.shards[x].task == t && db.shards[x].status.Held()
  }

  /** `a <= b` when both are set; an unset time constrains nothing. */
  predicate NotAfter(a: Option<Time>, b: Option<Time>) {
    a.Some? && b.Some? ==> a.value <= b.value
  }

  /** Guarded row updates: the column changes of internal/orm, one function a statement. */

  function LeaseRow(s: Shard, agent: AgentId): Shard {
    s.(status := ShardStatus.Leased, agent := Some(agent))
  }

  function StartRow(s: Shard, at: Time): Shard {
    s.(status := ShardStatus.Running, startedAt := Some(at))
  }

  function SucceedRow(s: Shard, at: Time): Shard {
    s.(status := ShardStatus.Succeeded, finishedAt := Some(at))
  }

  function OutputRow(s: Shard, key: string, sha: string): Shard {
    s.(outputKey := key, outputSha := sha)
  }

  function FailRow(s: Shard, at: Time, error: string): Shard {
    s.(status := ShardStatus.Failed, finishedAt := Some(at), lastError := error)
  }

  function CancelRow(s: Shard, at: Time): Shard {
    s.(status := ShardStatus.Cancelled, finishedAt := Some(at), agent := None, startedAt := None, lastError := "")
  }

  /** `started_at` survives a rollback; the next start overwrites it. */
  function RequeueRow(s: Shard): Shard {
    s.(status := ShardStatus.Queued, agent := None)
  }

  function PromoteTask(t: Task): Task {
    t.(status := TaskStatus.Queued)
  }

  function DemoteTask(t: Task): Task {
    t.(status := TaskStatus.WaitingForAgents)
  }

  function RunTask(t: Task, at: Time): Task {
    t.(status := TaskStatus.Running, startedAt := if t.startedAt.None? then Some(at) else t.startedAt)
  }

  function CloseTask(t: Task, status: TaskStatus, error: string, at: Time): Task {
    t.(status := status, lastError := error, finishedAt := Some(at))
  }
}
