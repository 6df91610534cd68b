# r-orchestrator: verified model

r-orchestrator splits a submitted bundle into a *task* with one *shard* per
script, leases the shards to agents over a control stream, closes the task when
its last shard is done, and recycles each tenant's cluster when it is idle. This
project models that logic in Dafny and proves what the system relies on but no
single statement of the code says.

| file | models |
|---|---|
| `Rows.dfy` | tenant, task and shard rows; the column changes of each guarded update |
| `Ledger.dfy` | committed transactions as events; the joint invariant of tasks and shards |
| `LedgerLaws.dfy` | laws over every log of events: absorption, leases, timestamps, hooks |
| `Columns.dfy` | the same transactions column by column, as a reference; what a shard's row remembers of its end |
| `Queue.dfy` | the lease query and its order, and the same column by column |
| `Interleaving.dfy` | report, lease, cancel and rollback split into SQL statements at READ COMMITTED, with row locks, aborts and restarts |
| `Rely.dfy`, `Assertions.dfy`, `Statements.dfy`, `Serializable.dfy` | what each process knows at each statement, that commits of others do not spoil it, and that the committed tables are always the replay of a legal log |
| `Concurrency.dfy` | theorems about all interleavings: locks, deadlock, stale reads, lease tries |
| `Calls.dfy` | exactly when a call gives up, that every call ends, and that it commits what was asked |
| `Delivery.dfy`, `Unread.dfy`, `Isolation.dfy` | completion hooks and tenant isolation in all interleavings |
| `Database.dfy` | the store as a class; each service call is one ledger event or changes nothing |
| `Agents.dfy` | agent registry, heartbeat and grace timers |
| `Control.dfy` | assignment, heartbeat and shard messages over store and registry together |
| `Recycler.dfy` | idle timer and billing boundary of a cluster |
| `AgentSession.dfy` | the Rust agent's session: channels, status slot, pending-result slot |

The lifecycle is proved at three levels. `Ledger` treats a transaction as one
step and proves one inductive invariant. `Interleaving` runs the statements of
concurrent transactions against each other: a statement sees the committed rows
and its own writes, a matching update or a locking read needs the row lock, and a
statement that had to wait judges the row anew. `Serializable.Serializability`
connects the two, so every ledger law holds of every interleaving. `Database`
runs the calls on mutable tables and keeps a ghost log of the events they amount to.

Facts about the code that the proofs brought out:

- The update from QUEUED back to WAITING_FOR_AGENTS is never attempted, because
  every caller's snapshot of the task is past WAITING_FOR_AGENTS (`Concurrency.NeverDemotes`).
- The payload for a cancelled task lacks its finish time exactly when the read after
  the commit fails (`Delivery.DispatchedOutcome`, `Unread.UnsetFinishTime`).
- A cluster can be terminated although activity was just seen, exactly when the
  last write that should have cleared `idle_since` failed (`Recycler.PromiseNeedsClear`), and a
  cluster row that is reused keeps the idle timer of its previous life (`Recycler.ReusedTimer`).
- An agent that timed out and then reports on a shard is RUNNING again without a
  timer, so its silence is never noticed (`Agents.RevivedUnwatched`).
  `Agents.TimeoutBounds` gives the bounds and the exact condition.
- An agent session is safe exactly when no result is stored between the moment
  the pending slot is read for the initial status and the moment it is taken
  (`AgentSession.SafeExactly`).

The repository's README says failed shards are reassigned, and the recycling design
note says idle clusters are renewed. The code does neither; the model follows the code.

## Model

| member | source | states |
|---|---|---|
| `Ledger.KeepsJointInv` | internal/service/task_service/recompute_task_status.go:18-85 | every committed transaction keeps the joint invariant of tasks and shards |
| `Ledger.JointInvariant` | internal/service/task_service/recompute_task_status.go:33-83 | after any legal log: PENDING/WAITING tasks have only QUEUED shards, a RUNNING shard has a RUNNING task, SUCCEEDED means all shards SUCCEEDED, CANCELLED means all terminal with one CANCELLED, FAILED means all still QUEUED or all done with one FAILED, QUEUED shards unassigned and held shards assigned, timestamps ordered |
| `LedgerLaws.TaskHistory` | internal/service/task_service/report_shard_status.go:94-108 | between any two points of a run a terminal task row never changes, the lifecycle rank never drops and `started_at` is written once, although mark-running excludes only CANCELLED |
| `LedgerLaws.ShardHistory` | internal/orm/task_shard_orm/update_shard_status.go:45-63 | a shard never changes task and a terminal shard row never changes again |
| `LedgerLaws.ClosedForGood` | internal/service/task_service/recompute_task_status.go:111-145 | a closed task and all its shard rows are the same in every later state |
| `LedgerLaws.NoLostCompletion` | internal/service/task_service/recompute_task_status.go:33-43 | a non-terminal task always has a QUEUED, LEASED or RUNNING shard; a terminal one has one only if the poller rejected it |
| `LedgerLaws.ClosedOnce` | internal/service/task_service/recompute_task_status.go:59-85 | over any run the number of transactions that close a task is exactly one if it is terminal and zero otherwise |
| `LedgerLaws.TimestampOrder` | internal/service/task_service/report_shard_status.go:94-105 | a task closed by recompute has task start <= shard start <= shard finish <= task finish for every shard |
| `LedgerLaws.LeaseConservation` | internal/service/task_service/lease_next_shard.go:75-94 | per task: leases = rollbacks + shards now held + shards that went from held to terminal |
| `LedgerLaws.ExclusiveLeases` | internal/service/task_service/lease_next_shard.go:75-87 | two leases of one shard are separated by a rollback of it |
| `LedgerLaws.OutOfQueue` | internal/orm/task_shard_orm/update_shard_status.go:36-40 | a leased shard is not QUEUED again until a rollback |
| `LedgerLaws.TerminalOnce` | internal/orm/task_shard_orm/cancel_task_shards_by_task_id.go:13-30 | each shard becomes terminal at most once, exactly once if it is terminal |
| `LedgerLaws.HookLaw` | internal/service/task_service/dispatch_completion_hook.go:118-132 | over any log: one payload for each task with a URL closed by recompute or cancel and none for any other, carrying the task's permanent status, error and finish time, with a result exactly when all shards SUCCEEDED |
| `Columns.DoesExactly` | internal/service/task_service/report_shard_status.go:61-108 | for every transaction and all tables: the guards and effects of the ledger are exactly those of a reference written in raw columns (statuses, agent, output key and checksum, error texts, times) |
| `Columns.FinishAgrees` | internal/service/task_service/recompute_task_status.go:33-109 | the same for a success or failure report: which columns it writes, when it closes the task, with which status and which error text |
| `Columns.RecordedEnd` | internal/service/task_service/report_shard_status.go:65-92 | every finished shard's row carries the key and checksum, or the error text, and the time of an event that ended it |
| `Columns.OutcomeRecorded` | internal/service/task_service/report_shard_status.go:80-92 | a shard is finished by one event only, and that event's outcome stays in its row for good |
| `Rely.EventEnv` | internal/service/task_service/report_shard_status.go:42-49 | a commit that respects a process's locks leaves its locked rows alone and moves other rows only forward |
| `Assertions.Stable` | internal/service/task_service/report_shard_status.go:35-121 | what a process knows at any statement survives every commit that respects its locks |
| `Statements.EveryStatement` | internal/service/task_service/lease_next_shard.go:28-96 | every statement of report, lease, cancel and rollback carries the process's knowledge to the next statement |
| `Serializable.CommitEffect` | internal/service/task_service/cancel_task.go:53-64 | the rows a transaction has written at commit are exactly those of an enabled event on the committed tables of that moment |
| `Serializable.Serializability` | internal/service/task_service/report_shard_status.go:35-121 | after any interleaving of statements, commits, aborts and restarts the committed tables are the replay of a legal log, locks are exclusive and every process's assertion holds |
| `Concurrency.CommittedStates` | internal/service/task_service/recompute_task_status.go:18-43 | in every interleaving each committed state satisfies the joint invariant and each open task has an active shard |
| `Concurrency.TaskNeverGoesBack` | internal/service/task_service/report_shard_status.go:94-108 | in every interleaving terminal tasks are absorbing, rank never drops, `started_at` is written once |
| `Concurrency.ShardNeverGoesBack` | internal/orm/task_shard_orm/update_shard_status.go:45-63 | in every interleaving a shard keeps its task and a terminal shard keeps its row |
| `Concurrency.NeverDemotes` | internal/orm/task_orm/rollback_task_status.go:15-26 | no process of a reachable state is ever about to run the QUEUED to WAITING update |
| `Concurrency.LockOrder` | internal/service/task_service/lock_order_test.go:13-92 | every reachable process holds at most one task lock and takes it before any shard lock |
| `Concurrency.LeaseAtomicity` | internal/service/task_service/lease_next_shard.go:52-88 | after an effective promotion the shard compare-and-set is not blocked and succeeds |
| `Concurrency.NoDeadlock` | internal/orm/task_shard_orm/rollback_shard_with_task.go:16-26 | no reachable state has a cycle of processes waiting for each other's row locks |
| `Concurrency.SomeoneMoves` | internal/service/task_service/lease_next_shard.go:28-96 | while any process is left, some process can take its next step |
| `Concurrency.StaleReadHarmless` | internal/service/task_service/report_shard_status.go:36-92 | the report leaves the tables as if it had read the shard again under the task lock: both readings make it the same process, or the second one commits nothing and the first gives up, at once or at its shard update in whichever later state of the run that executes |
| `Concurrency.DuplicateNeverMoves` | internal/service/task_service/report_shard_status.go:51-54 | once a shard's success is recorded, a report that missed it fails at its shard update at every later moment of the run |
| `Concurrency.TryHasSelect` | internal/service/task_service/lease_next_shard.go:31-43 | the tables a lease goes by are the committed tables of the run at the select of the same try |
| `Concurrency.LostTry` | internal/service/task_service/lease_next_shard.go:83-87 | a lost lease try wrote nothing, and the shard's or its task's row differs between the state of the run at its select and now |
| `Concurrency.LeaseOrder` | internal/service/task_service/lease_next_shard.go:29-43 | the shard a lease goes for was first by (task creation, script name) among those eligible in the committed state of the run at the select of that try |
| `Concurrency.LeasedInOrder` | internal/service/task_service/lease_next_shard.go:75-94 | the same of the shard in the lease event that the winning try commits |
| `Concurrency.RunTimestamps` | internal/service/task_service/report_shard_status.go:32-105 | the timestamp order in every interleaving, with the order of the clock readings derived from the run's clock |
| `Concurrency.RunLeases` | internal/orm/task_shard_orm/cancel_task_shards_by_task_id.go:15-25 | in every interleaving leases are conserved, each shard ends at most once and each task is closed at most once |
| `Concurrency.RunExclusive` | internal/service/task_service/lease_next_shard.go:75-87 | in every interleaving two leases of one shard are separated by a rollback |
| `Concurrency.NotFoundMeansNone` | internal/service/task_service/lease_next_shard.go:31-43 | a lease finds nothing exactly when every QUEUED shard of its tenant and backend is under a PENDING, SUCCEEDED, FAILED or CANCELLED task |
| `Calls.GivesUpExactly` | internal/service/task_service/report_shard_status.go:36-60 | in every reachable state a report, lease, cancel or rollback gives up at its next statement exactly when the committed row it looks at rules the request out; past its first write nothing but an abort keeps it from its commit |
| `Calls.EveryCallEnds` | internal/service/task_service/lease_next_shard.go:29-98 | every statement takes its call closer to its end, a lease in at most 100 tries |
| `Calls.ReportAnswered` | internal/service/task_service/report_shard_status.go:61-115 | a report's process commits the start or finish it was asked for, or nothing for a repeated success or an unknown status |
| `Calls.RunRecordedEnd` | internal/service/task_service/report_shard_status.go:80-92 | in every interleaving a finished shard's row carries what a committed event said of it |
| `Queue.NextExists` | internal/service/task_service/lease_next_shard.go:38-43 | a nonempty set of eligible shards has a first one in the queue order |
| `Queue.IsNextMeans` | internal/service/task_service/lease_next_shard.go:22-41 | the query's result is the QUEUED shard of the tenant and backend, under a task neither PENDING nor closed, that is least by task creation time and dictionary order of script names |
| `Queue.TextLeMeans` | internal/service/task_service/lease_next_shard.go:39-40 | the order of script names is the dictionary order |
| `Delivery.HookDelivery` | internal/service/task_service/report_shard_status.go:118-129 | in every interleaving at most one payload per task is dispatched, only for a task with a URL closed by recompute or cancel; each owed payload is dispatched, about to be, or dropped by a restart |
| `Delivery.DispatchedOutcome` | internal/service/task_service/cancel_task.go:74-87 | every dispatched payload tells the task's permanent status, error, tenant and URL, with a result exactly when all shards SUCCEEDED; its finish time is the row's if and only if the row could be read again after the commit, and otherwise it is unset and the task CANCELLED |
| `Unread.UnreadRefresh` | internal/service/task_service/cancel_task.go:76-86 | from any run about to refresh, a failed read leads to a payload without the finish time that the row has |
| `Unread.UnsetFinishTime` | internal/service/task_service/cancel_task.go:76-86 | a whole run that ends so |
| `Isolation.TenantIsolation` | internal/service/agent_service/register_agent.go:22-55 | in every interleaving QUEUED shards are unassigned, held shards assigned, and a shard leased in this server run is held by an agent registered for its task's tenant and backend |
| `Database.LoadValidatedShard` | internal/service/task_service/validate_shard.go:19-64 | a shard passes exactly if its task has the caller's tenant and backend and the shard is the caller's or is terminal |
| `Database.Db.TransitionStatus` | internal/orm/task_shard_orm/update_shard_status.go:45-63 | succeeds exactly from an allowed status, writes status and columns, otherwise changes nothing and tells why |
| `Database.Db.RollbackShardWithTask` | internal/orm/task_shard_orm/rollback_shard_with_task.go:16-26 | requeues the shard, and the task only if the snapshot waited and the task is QUEUED |
| `Database.Db.ResolveTaskFailureLastError` | internal/service/task_service/recompute_task_status.go:87-109 | the error of a latest finished failed shard that has one, else the fallback, else the default text |
| `Database.Db.RecomputeTaskStatus` | internal/service/task_service/recompute_task_status.go:18-85 | closes the task exactly when it is open and no shard is active, as FAILED if a shard failed, with the hook payload of the new row |
| `Database.Db.ReportShardStatus` | internal/service/task_service/report_shard_status.go:26-132 | accepted exactly for a repeated success or an expected status under a task not cancelled; then the shard's row has the reported status, output key and checksum or error text, and the tables and the hook are those of one start or finish event; otherwise nothing changes |
| `Database.FinishTables` | internal/service/task_service/report_shard_status.go:61-115 | shard move, output and recompute together are exactly the ledger's finish event |
| `Database.Db.LeaseAmongRivals` | internal/service/task_service/lease_next_shard.go:28-103 | the retry loop, with other transactions committing in the midst of any try: the leased shard was first in the queue at the select of the winning try, not-found means an empty queue, and the 100 tries are used up only if others interfered in every one |
| `Database.Db.LeaseTry` | internal/service/task_service/lease_next_shard.go:31-94 | one try: it wins, finds nothing because nothing is eligible, or loses because the shard or its task has changed since its select; undisturbed it never loses |
| `Database.Db.LeaseNextShard` | internal/service/task_service/lease_next_shard.go:12-103 | undisturbed: finds none exactly when every QUEUED shard of the tenant and backend is under a PENDING or closed task, else leases the oldest task's first shard by script name, which gets status LEASED and the agent and promotes a waiting task |
| `Database.Db.CancelTask` | internal/service/task_service/cancel_task.go:22-103 | one cancel event, or nothing; notified are exactly the agents of the task's LEASED and RUNNING shards; the hook's fields, with the finish time exactly when the row can be read again |
| `Database.Db.RollbackAssignedShard` | internal/service/task_service/rollback_shard.go:17-26 | takes back exactly a LEASED shard; the task changes only if the snapshot waited and the task is QUEUED, and when it does not the log stays legal |
| `Database.Db.RollbackTimedOutShard` | internal/service/task_service/rollback_shard.go:64-89 | succeeds exactly for a shard the agent holds under its tenant and backend; the task stays |
| `Database.Db.RollbackOrphanShardsForAgent` | internal/service/task_service/rollback_shard.go:31-59 | requeues all shards the agent holds and no other, and counts them |
| `Database.Db.CleanupOrphanShards` | internal/orm/task_shard_orm/cleanup_orphans.go:20-51 | requeues exactly the held, started-before-cutoff shards of unregistered agents, and counts them |
| `Database.Db.SubmitTask` | internal/service/task_service/submit_task.go:72-100 | creates one PENDING task and, for each script, one QUEUED shard with its name, as one event, or fails without scripts or tenant |
| `Database.NamesFaithful` | internal/service/task_service/submit_task.go:85-93 | the insert loop gives every script, repeated names included, a shard of its own |
| `Database.NamesCount` | internal/service/task_service/submit_task.go:72-93 | there are as many shards as the task's shard count says |
| `Database.Db.MarkTasksStatus` | internal/orm/task_orm/mark_tasks_status.go:12-30 | moves exactly the listed PENDING tasks, to any status; with the statuses the poller uses the log stays legal |
| `Database.PollAll` | internal/orm/task_orm/mark_tasks_status.go:17-24 | the bulk update equals one poll event per task, in any order |
| `Agents.TimersAhead` | internal/service/agent_service/agent.go:114-132 | in every run a pending timer is due between now and one period from now |
| `Agents.TimeoutBounds` | internal/service/agent_service/agent.go:155-205 | last updated at h, a connected agent turns UNRESPONSIVE at one instant in (h+T-1s, h+2T] and TIMED_OUT one period later if a heartbeat timer is pending, and never otherwise; pending after registration and heartbeats, after other messages exactly if pending before |
| `Agents.GraceExact` | internal/service/agent_service/agent.go:207-224 | a silent agent is DISCONNECTED until exactly one grace period after its stream ended, then TIMED_OUT without a shard |
| `Agents.ReconnectRestores` | internal/service/agent_service/register_agent.go:22-55 | the registration alone, within the grace period: the same identity gets its RUNNING status and shard back, an idle or lost agent comes back IDLE, another identity is refused |
| `Agents.RevivedUnwatched` | internal/service/agent_service/heartbeat_agent.go:8-24 | a run in which a timed-out agent is RUNNING again and never times out |
| `Agents.IdentityBound` | internal/service/agent_service/register_agent.go:22-33 | an agent id keeps the tenant and backend of its first registration |
| `Agents.OneLiveStream` | internal/service/agent_service/register_agent.go:45-50 | while an agent is IDLE or RUNNING, until its stream ends, a timer fires or it reports another status, every further registration of its id is refused and changes nothing |
| `Agents.Registry.RegisterAgent` | internal/service/agent_service/register_agent.go:10-58 | accepted exactly for an unknown id, or the same tenant and backend when neither IDLE nor RUNNING; the columns of the new record; a refusal changes nothing |
| `Agents.Registry.OnHeartbeatTimeout` | internal/service/agent_service/agent.go:155-205 | re-armed when the agent was seen within the period, UNRESPONSIVE first, TIMED_OUT without a shard next; the timeout callback runs exactly then |
| `Agents.Registry.OnGraceExpired` | internal/service/agent_service/agent.go:207-224 | the callback's slot change; the shard to roll back is the disconnected agent's |
| `Agents.Registry.OpenStream` | internal/control/server.go:63-77 | an accepted registration leaves the agent with a fresh heartbeat timer, a rejected one changes nothing |
| `Control.Server.TryAssignShard` | internal/control/try_assign_shard.go:20-106 | leases the first eligible shard and marks the agent busy with it; an unknown agent or failed send restores all shards |
| `Control.Server.HandleHeartbeat` | internal/control/handle_heartbeat.go:15-57 | an IDLE heartbeat resynchronises: the agent holds exactly the shard just leased, or none; its others are queued, nobody else's changed, registry and store agree, a failed send leases nothing; any heartbeat re-arms the timer |
| `Control.AssignResync` | internal/control/handle_heartbeat.go:23-54 | rollback of everything held followed by an assignment attempt gives the resynchronised state |
| `Control.Server.HandleReconnectedAgent` | internal/control/handle_reconnected_agent.go:17-50 | an agent that came back RUNNING is reset to IDLE and resynchronised, so it holds exactly what it is then leased; one that came back IDLE is leased a shard without any rollback |
| `Control.Server.HandleShardStarted` | internal/control/handle_shard_started.go:14-34 | only the holder of a LEASED shard under the right tenant and backend starts it, as one start event |
| `Control.Server.HandleShardEnd` | internal/control/handle_shard_result_ready.go:14-79 | refused exactly when the shard is not the agent's to speak about or is RUNNING under a cancelled task; otherwise a RUNNING shard is finished as one event with its hook, a success is acknowledged if the message can be sent, and the agent becomes IDLE and is assigned the next shard unless it has moved on |
| `Control.Server.ResetAgentAndAssign` | internal/control/handle_shard_result_ready.go:74-79 | a known agent becomes IDLE and gets the first open shard whenever there is one and the message can be sent |
| `Recycler.BillingCorridor` | internal/service/cluster_service/recycler.go:71-91 | in every life of a cluster the boundary is the provided one plus whole cycles and at most advance + cycle ahead |
| `Recycler.NeverExpiresAgain` | internal/service/cluster_service/recycler.go:77-90 | with activity and visits at most min(advance, cycle) apart, once seen unexpired the boundary is never seen expired |
| `Recycler.CatchesUp` | internal/service/cluster_service/service.go:24-37 | within n active visits an expired boundary is caught up or the deficit has shrunk by (n-1) times (cycle - gap) |
| `Recycler.TerminatedOnTime` | internal/service/cluster_service/recycler.go:93-121 | a quiet cluster is terminated by the first visit at or after max(t0 + idle, boundary - advance), not before |
| `Recycler.TerminationHonest` | internal/service/cluster_service/recycler.go:61-121 | if all clearing writes succeed, termination follows at least `idle` time in which no visit found activity |
| `Recycler.PromiseNeedsClear` | internal/service/cluster_service/recycler.go:71-76 | for any visits before and all calm visits after the last one that found activity: that promise is kept if and only if this visit's clearing succeeded or there was no timer to clear |
| `Recycler.ReusedTimer` | internal/orm/cluster_orm/get_or_create_active_cluster.go:36-55 | a reused cluster's first quiet visit counts idle time from the previous life |
| `Recycler.VisitedExactly` | internal/service/cluster_service/recycler.go:52-121 | a visit in raw columns: when the boundary moves and by how much, when the idle timer is set or cleared, when the cluster is terminated |
| `Recycler.Store.RecycleOne` | internal/service/cluster_service/recycler.go:52-121 | one visit performs exactly that change, whichever calls fail |
| `Recycler.Store.RecycleClusters` | internal/service/cluster_service/recycler.go:46-121 | one round visits every listed cluster once and no other row changes |
| `Recycler.Store.GetOrCreateActiveCluster` | internal/orm/cluster_orm/get_or_create_active_cluster.go:14-58 | a live row is reused as is, a missing one created, a terminated one provided anew with its idle timer kept |
| `AgentSession.SessionSafety` | agent/src/control_client.rs:87-120 | in every run of a session at most one execution is unfinished; while a result or acknowledgement for X is under way X fills the status slot and nothing is unfinished |
| `AgentSession.SafeExactly` | agent/src/control_client.rs:148-165 | all runs are safe if and only if no result slips in between reading an empty pending slot and taking it |
| `AgentSession.TwoExecutions` | agent/src/control_client.rs:331-343 | a run with two unfinished executions after such a slip |
| `AgentSession.StoredClears` | agent/src/control_client.rs:331-343 | in any run, reading the acknowledgement of X frees the pending slot and the status slot of X and leaves results and statuses of other shards alone |
| `AgentSession.ResultKept` | agent/src/pending_result.rs:58-66 | a pending result is dropped by nothing but the acknowledgement of its shard |
| `AgentSession.CourseReturns` | agent/src/control_client.rs:148-343 | from any run at rest, a shard that is assigned, executed, sent, taken and acknowledged leaves the session at rest again, ready for the next |
| `AgentSession.CourseSends` | agent/src/control_client.rs:148-312 | an assignment at rest starts an execution, and its very output is what is kept pending and sent |
| `AgentSession.FailureReturns` | agent/src/control_client.rs:222-266 | a failed execution is reported and leaves both slots empty |
| `AgentSession.ReconnectResends` | agent/src/control_client.rs:101-120 | a session that connects with a pending result sends it and is at rest once it is acknowledged |
| `AgentSession.AgentLoop.OnMessage` | agent/src/control_client.rs:147-343 | an assignment is taken exactly when both slots are empty, an acknowledgement frees both slots of its shard, and nothing else changes; each message's effect on every field |
| `AgentSession.AgentLoop.OnEnd` | agent/src/control_client.rs:217-294 | an ended execution stores its result, or reports failure when it failed or the slot is taken |
| `AgentSession.AgentLoop.OnSettle` | agent/src/control_client.rs:237-312 | the execution's last step sends the result or resets the status if it is still about its shard |

## Left out

- Database.Db.LeaseAmongRivals: others act once a try, between its select and its updates, and are leases and cancels; every other interleaving of the loop is in `Interleaving` and `Concurrency`.
- Database.Db.SubmitTask: takes the script names as given; reading the zip, sorting the names, URL checks and the upload are foreign I/O.
- Database.Db.MarkTasksStatus: the grouping of pending tasks by tenant and the provisioning calls around it are not modelled; in `Interleaving` the bulk update is one step per row.
- Recycler.Store.RecycleOne: reads one instant per visit where the code reads the clock several times.
- Agents.TimeoutBounds: timers fire on time and callbacks are atomic; delayed or concurrent callbacks are not modelled.
- Delivery.HookDelivery: dispatch is the step that hands the payload to the HTTP client; delivery, retries and `recordCompletionHookResult` are not modelled.
- Database.Db.ResolveTaskFailureLastError: leaves ties of equal finish times open, because `updated_at`, which breaks them, is not a column here.
- Database errors other than a failed guard appear as an abort at any statement of a transaction, and as a failed read in the refresh after a cancel's commit; a process that owes a payload does not abort. The class methods do not fail on I/O but for that read.
- NULL and the empty string in `assigned_agent_id` are one value; database collation is plain code-point order.
- A cancel's notifications are a returned list; sending them is not modelled.
- `HandleAgentTimeout`'s lookup, `ShouldTerminate` and `GetActiveTenantIDs` would add only compositions of members already here.
- Cancel tokens in the agent only shorten an execution and do not appear.
- GraphQL, configuration, logging, object storage signing, Kubernetes calls, script execution and cache cleanup.
