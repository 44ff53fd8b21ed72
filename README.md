# Agentic-OS team coordination, modelled in Dafny

This project models the team-coordination layer of Agentic-OS. That layer has
two parts.

- The **team coordinator** (`src/core/coordination.py`) decides which agents
  may take a task and scores each eligible agent. It picks the best agent,
  derives per-agent workloads from the current assignments, and allocates a
  batch of tasks one after the other. It also keeps a broadcast message queue.
- The **agent team** (`src/core/team.py`) builds its member agents from a
  configuration. It accepts tasks as pending contexts carrying a
  coordinator-made plan, then works through its FIFO task queue, running each
  plan in parallel or sequential mode and recording the outcome in the
  context.

Files:

- `ids.dfy`: the agent and task identifiers both parts share (strings).
- `wrappers.dfy`: `Option` and `Result`.
- `ordered_dicts.dfy`: a Python dictionary as a sequence of (key, value)
  entries in insertion order, with `Keys`, `Get` and `Set`. Insertion order
  decides the tie-break of the best-agent search, `list(agents.keys())[0]` and
  the `zip` of parallel mode.
- `coordination.dfy`: module `Coordination`.
  - Scores are exact rationals (`real`).
  - `_find_best_agent` is a loop in class `TeamCoordinator`. It is proved equal
    to the function `BestAgent`, which is built on a generic first-strict-argmax
    `FirstBest` over the agents' optional scores.
  - `optimize_task_allocation` is a loop proved equal to the function
    `Allocate`. Lemmas about `Allocate` state what each agent's list and
    workload end up as.
- `team.dfy`: module `Team`.
  - The agent's `process` call is a function parameter (`Processor`) that
    either returns an output or raises with a message.
  - The coordinator's planning call is also a parameter (`Planner`).
  - `asyncio.gather` is an order-preserving map over the zipped pairs.
  - Class `AgentTeam` holds the task table and the queue.
  - `execute_tasks`' endless loop is split in two. `ExecuteNext` handles one
    queued context. `ExecuteTasks` drains the queue, with the queue length as
    its termination measure.

Noteworthy behaviour of the code, which the model follows as written:

- Statuses "planned" and "executing" are never written. A context goes from
  "pending" straight to "completed" or "failed".
- In parallel mode, a failure leaves no partial results in the context.
  `results` is written only when the gather completes.
- Per-subtask agent selection in sequential mode is a placeholder: it always
  picks the first member.
- `max_concurrent_tasks` and `coordinator_agent` are stored but never used.
- `if best_agent:` in `optimize_task_allocation` tests truthiness. A best agent
  whose id is the empty string is therefore never allocated (`Choice`).
- Task ids are not required to be distinct. A repeated id is appended to an
  agent's list once for each task with that id that got an agent, so the id can
  appear even though another task with the same id was left out.

## Model

| member | source | states |
|---|---|---|
| OrderedDicts.Get | src/core/coordination.py:143 | a lookup finds nothing exactly when the key is absent, and what it finds is an entry of the dictionary |
| OrderedDicts.GetAt | src/core/team.py:146 | in a dictionary with distinct keys, looking up the key at position i yields the value at position i |
| OrderedDicts.Set | src/core/team.py:45 | assignment to an existing key keeps the key order, a new key goes last; every entry afterwards is either the new pair or an entry that was already there |
| OrderedDicts.SetGet | src/core/team.py:45 | after assignment the key maps to the new value, and every other key maps to what it mapped to before |
| Coordination.CanHandleTask | src/core/coordination.py:141-155 | the eligibility gate: the agent is in the status table, its "available" flag is true, and the required capabilities are a subset of its capabilities |
| Coordination.CapabilitiesOf | src/core/coordination.py:94 | a known agent's "capabilities" list (empty when the key is missing) |
| Coordination.UnknownOrUnavailableCannotHandle | src/core/coordination.py:141-149 | an agent absent from the status table, or whose "available" flag is missing or false, can never handle a task |
| Coordination.EligibleHasEveryCapability | src/core/coordination.py:151-155 | an agent that can handle a task has every capability the task requires |
| Coordination.PartialCapabilitiesRejected | src/core/coordination.py:151-155 | an available agent with capabilities {A} is rejected for a task requiring {A, B} |
| Coordination.CapabilityMatch | src/core/coordination.py:92-100 | the match lies in [0, 1]; it is 1.0 when nothing is required; it is 1.0 exactly when every required capability is present |
| Coordination.EligibleMatchesFully | src/core/coordination.py:92-100 | every agent that passes the eligibility gate has a capability match of exactly 1.0 |
| Coordination.WorkloadOf | src/core/coordination.py:76 | `workloads.get(agent_id, 0)`: the agent's workload, 0 when it has none |
| Coordination.WorkloadScore | src/core/coordination.py:76 | `1/(1+w)` lies in (0, 1] for a non-negative workload and is 1.0 at zero |
| Coordination.WorkloadScoreDecreasing | src/core/coordination.py:76 | the workload score strictly decreases as the workload grows from 0 upward |
| Coordination.WeightedSum | src/core/coordination.py:115-118 | the sum over the weight list of each metric (0.5 when missing) times its weight |
| Coordination.WeightedSumBounds | src/core/coordination.py:115-118 | with non-negative weights and the metrics they read (present or defaulted) in [0, 1], the weighted sum lies between 0 and the total weight |
| Coordination.WeightedSumSameReads | src/core/coordination.py:115-118 | two metric tables that agree on the metrics the weights read give the same weighted sum |
| Coordination.WeightedSumUniform | src/core/coordination.py:115-118 | when every weighted metric has the same value v, the sum is v times the total weight |
| Coordination.PerformanceScore | src/core/coordination.py:102-120 | an agent without metrics scores 0.5; when its three weighted metrics lie in [0, 1], the score lies in [0, 1] because the weights 0.4, 0.3, 0.3 sum to 1, whatever other metrics it has |
| Coordination.UnweightedMetricIgnored | src/core/coordination.py:108-118 | adding or changing a metric other than the three weighted ones leaves the score of an agent with metrics unchanged |
| Coordination.UnweightedMetricExample | src/core/coordination.py:108-118 | a completion rate of 1.0 beside a latency of 250 scores 0.7: the latency is ignored and the two missing metrics default to 0.5 |
| Coordination.PerformanceScoreOfUniformMetrics | src/core/coordination.py:108-120 | an agent with at least one metric whose three weighted metrics all read v (present, or defaulted to 0.5 when v is 0.5) scores exactly v; the agent with no metrics is the cold-start 0.5 of `PerformanceScore` |
| Coordination.CombinedScore | src/core/coordination.py:80-84 | the combined score `0.4 * capability + 0.3 * workload + 0.3 * performance` |
| Coordination.AgentScore | src/core/coordination.py:74-84 | an eligible agent with non-negative workload and its three weighted metrics in [0, 1] scores more than 0.4 and at most 1.0 |
| Coordination.FirstBest | src/core/coordination.py:86-88 | the position the strict-improvement scan holds is one of the positions scanned, and its candidate is present |
| Coordination.ScanStep | src/core/coordination.py:70-88 | one pass of the loop: an agent that fails the gate leaves the held position; an eligible one, whose workload is then defined, replaces it exactly when none is held or its score is strictly higher |
| Coordination.FirstBestSpec | src/core/coordination.py:65-90 | the scan finds nothing exactly when no candidate is present; otherwise it holds a candidate scoring at least every present one and strictly more than every present one before it |
| Coordination.FirstBestIsUnique | src/core/coordination.py:86-88 | at most one position is the first best, so the choice is deterministic |
| Coordination.BestAgent | src/core/coordination.py:65-90 | a selected agent is in the status table |
| Coordination.BestAgentSpec | src/core/coordination.py:65-90 | no agent is selected exactly when none passes the gate; otherwise the selected agent is eligible, scores at least every eligible agent, and is the first such in status-table order |
| Coordination.BestAgentGate | src/core/coordination.py:65-90 | no agent is selected exactly when no agent passes `_can_handle_task`; otherwise the selected agent is the one at a best position |
| Coordination.BestIsUnique | src/core/coordination.py:86-88 | at most one agent position satisfies the best-agent property |
| Coordination.SecondOfTwoWins | src/core/coordination.py:86-88 | of two eligible agents the second is selected exactly when its score is strictly higher; a tie keeps the first |
| Coordination.HigherPerformanceWins | src/core/coordination.py:65-120 | with equal capability match (both 1.0) and equal zero workloads, an agent whose three metrics are 0.9 beats one with no history |
| Coordination.NoAvailableAgentNoSelection | src/core/coordination.py:65-90 | with no agent available, no agent is selected |
| Coordination.EstimateTaskLoad | src/core/coordination.py:136-139 | the placeholder load estimate: 1.0 for every task |
| Coordination.AssignedTasks | src/core/coordination.py:125-129 | the tasks of the assignment entries naming the agent, in dictionary order |
| Coordination.TotalLoad | src/core/coordination.py:131-139 | the load of a list of tasks is its length, since each task weighs 1.0 |
| Coordination.AssignedTasksCount | src/core/coordination.py:125-129 | an agent's assigned-task list has one entry per assignment naming that agent |
| Coordination.Workloads | src/core/coordination.py:122-134 | the workload table has exactly the keys of the status table, and its values are non-negative |
| Coordination.WorkloadsCount | src/core/coordination.py:122-134 | each agent's workload is the number of assignments naming it; assignments naming unknown agents count for no one |
| Coordination.Choice | src/core/coordination.py:56-57 | a task goes only to an agent of the status table |
| Coordination.AllocateStep | src/core/coordination.py:56-61 | one allocator step keeps the workload keys and keeps workloads non-negative |
| Coordination.Allocate | src/core/coordination.py:50-63 | the whole batch keeps the workload keys and keeps workloads non-negative |
| Coordination.AllocateLists | src/core/coordination.py:55-60 | after the batch, each agent's list holds the ids of exactly the tasks chosen for it, in input order |
| Coordination.AllocateKeys | src/core/coordination.py:57-59 | an agent has a list exactly when at least one task was chosen for it |
| Coordination.AllocateWorkloads | src/core/coordination.py:56-61 | after the batch, an agent's working workload is its initial workload plus 1.0 per task it received |
| Coordination.AssignedIdsSound | src/core/coordination.py:60 | every id in an agent's list belongs to a task chosen for that agent |
| Coordination.AssignedIdsComplete | src/core/coordination.py:60 | every task chosen for an agent has its id in that agent's list |
| Coordination.AssignedIdsOrdered | src/core/coordination.py:55-60 | within one list, ids appear in the order of the input tasks |
| Coordination.AtMostOneList | src/core/coordination.py:55-60 | with distinct task ids, a task's id appears only in the list of the agent it went to |
| Coordination.AllocatedListMembership | src/core/coordination.py:55-60 | with distinct task ids, a task's id is in an agent's final list exactly when the task went to that agent, so a task that went to no agent is in no list |
| Coordination.AssignedIdsDistinct | src/core/coordination.py:55-60 | with distinct task ids, no id occurs twice in one list |
| Coordination.IneligibleTaskOmitted | src/core/coordination.py:56-57 | a task no agent is eligible for is left out, whatever the agent ids |
| Coordination.ChoiceNoneIff | src/core/coordination.py:56-57 | when no agent id is empty, a task is omitted exactly when no agent is eligible for it |
| Coordination.ChoiceIsBest | src/core/coordination.py:56 | the agent a task goes to is the best agent under the workloads current at that step |
| Coordination.TeamCoordinator.constructor | src/core/coordination.py:31-36 | a new coordinator has an empty queue and empty status, assignment and metric tables, and satisfies `Valid`: its status and assignment tables have distinct keys, as Python dictionaries do |
| Coordination.TeamCoordinator.BroadcastMessage | src/core/coordination.py:38-48 | exactly one message to "all", with priority 1 and no response required, is appended at the tail of the queue; earlier messages and all other state are untouched, so `Valid` is kept |
| Coordination.TeamCoordinator.FindBestAgent | src/core/coordination.py:65-90 | the loop returns `BestAgent`: nothing exactly when no agent passes the gate, otherwise the first eligible agent with the highest combined score |
| Coordination.ScanAgent | src/core/coordination.py:70-88 | the loop body for one agent leaves the held position and score equal to the scan of one more candidate |
| Coordination.TeamCoordinator.CalculateWorkloads | src/core/coordination.py:122-134 | the nested loops return `Workloads`: exactly the status table's keys, each mapped to its assignment count |
| Coordination.TeamCoordinator.OptimizeTaskAllocation | src/core/coordination.py:50-63 | the loop returns the lists of `Allocate`, starting from the derived workloads |
| Coordination.TeamCoordinator.AllocateTask | src/core/coordination.py:56-61 | one pass of the allocator loop performs exactly `AllocateStep` and keeps the workloads non-negative and covering every agent |
| Team.DefaultConfig | src/core/team.py:12-18 | a configuration with the defaults `max_concurrent_tasks = 5` and `collaboration_mode = "parallel"` |
| Team.CoordinatorOf | src/core/team.py:33-37 | the coordinator agent: named `<team>_coordinator`, with capabilities ["coordination", "planning"] |
| Team.MemberOf | src/core/team.py:41-45 | a member agent: named `<team>_<id>`, with capabilities ["execution", "collaboration"] |
| Team.Dedup | src/core/team.py:40-45 | the keys a member loop leaves have no repeats |
| Team.DedupMembers | src/core/team.py:40-45 | an id is among those keys exactly when it is among the configured ids |
| Team.DedupOfDistinct | src/core/team.py:40-45 | when the configured ids are distinct, the key list is exactly the configured list, in order |
| Team.MemberAgents | src/core/team.py:39-45 | the loop leaves one entry per configured id, in first-occurrence order; each holds an agent named `<team>_<id>` with capabilities ["execution", "collaboration"] |
| Team.NewContext | src/core/team.py:55-61 | the context before planning: status "pending", the submitted task, no assigned agents, the given timestamp, and no plan, results or error yet |
| Team.SubtasksOf | src/core/team.py:109-130 | reading the subtasks fails only because the plan is None or has no "subtasks" key |
| Team.SelectAgentForSubtask | src/core/team.py:149-152 | the first member is selected whatever the subtask; with no members, selection fails |
| Team.ExecuteSubtask | src/core/team.py:144-147 | the outcome of the named member's `process` on the subtask |
| Team.ExecuteSubtaskAt | src/core/team.py:144-147 | running the key at position i calls the agent stored at position i |
| Team.Gather | src/core/team.py:121 | a completed gather has one result per call; a failed one reports an agent's raised error |
| Team.GatherDone | src/core/team.py:121 | the gather completes exactly when no call raised, and result i is call i's value |
| Team.GatherFirstFailure | src/core/team.py:121 | the gather fails with the error of the first call, in list order, that raised |
| Team.ParallelCalls | src/core/team.py:115-118 | one call per zipped pair: `min(|subtasks|, |agents|)` calls |
| Team.ParallelCallsAt | src/core/team.py:115-118 | call i is member i's `process` on subtask i |
| Team.Parallel | src/core/team.py:115-125 | parallel mode on a plan's subtasks: gather one call per (subtask, member) pair of the zip, and complete with the gathered results |
| Team.ParallelCompleted | src/core/team.py:109-125 | parallel mode completes exactly when no member raised; then it holds `min(|subtasks|, |agents|)` results, result i being member i's output on subtask i |
| Team.ParallelFailed | src/core/team.py:115-121 | parallel mode fails with the error of the first zipped pair whose member raised |
| Team.ParallelEmptyTeam | src/core/team.py:117 | a team with no members completes any plan in parallel mode, with empty results |
| Team.OnFirstMember | src/core/team.py:133-138 | the first member is called once per subtask |
| Team.Sequential | src/core/team.py:127-142 | sequential mode: each subtask in plan order goes to the selected member; a failed selection or a raised call stops the run, otherwise it completes with one result per subtask |
| Team.SequentialDispatched | src/core/team.py:133-141 | the subtasks sequential mode hands to a member, in order: all of them up to and including the first whose call raises, and none when selection fails |
| Team.SequentialOnFirstMember | src/core/team.py:127-152 | sequential mode gathers, in plan order, the first member's calls on each subtask |
| Team.SequentialCompleted | src/core/team.py:127-142 | sequential mode completes exactly when the first member returns on every subtask; then there is one result per subtask in plan order and every subtask was handed out |
| Team.SequentialStopsAtFailure | src/core/team.py:133-141 | when subtask k is the first to raise, the run fails with that error and only subtasks 0..k were handed out |
| Team.SequentialFrom | src/core/team.py:133-152 | one step of the sequential loop: with no members it fails before handing out the subtask; otherwise the first member is called on it, and the run either stops with its error or continues with the remaining subtasks |
| Team.SequentialEmptyTeam | src/core/team.py:135-152 | on a team with no members, sequential mode with at least one subtask fails before handing anything out |
| Team.RunContext | src/core/team.py:97-100 | the mode dispatch: read the plan's subtasks, then parallel mode when the configured mode is "parallel" and sequential mode for any other string |
| Team.Record | src/core/team.py:102-142 | after a run the status is no longer "pending"; it is "completed" exactly when the run completed, which also sets `results`; a failure sets `error` and leaves `results` untouched; id, task, assigned agents, timestamp and plan are kept |
| Team.Drain | src/core/team.py:92-107 | draining the queue keeps the task table's keys |
| Team.DrainStep | src/core/team.py:92-107 | processing the queue head and then draining the rest is the same as draining the whole queue |
| Team.DrainEach | src/core/team.py:92-107 | each queued context ends as its own run leaves it, whatever the other tasks did; contexts not queued are untouched |
| Team.AgentTeam.constructor | src/core/team.py:23-45 | a new team has the configured members in order, the coordinator `<team>_coordinator` with capabilities ["coordination", "planning"], no tasks and an empty queue |
| Team.AgentTeam.AssignTask | src/core/team.py:47-88 | the planner is asked with the pending context, the member ids and the mode. If it raises, a TeamError "Failed to assign task: ..." is returned and nothing changes. Otherwise the id is returned, the pending context with no assigned agents and the planner's plan is stored under it, and the id is appended to the queue |
| Team.AgentTeam.ExecuteSequential | src/core/team.py:127-142 | the loop returns `Sequential` on the plan's subtasks and hands out exactly `SequentialDispatched`; a missing plan or subtask list fails first |
| Team.AgentTeam.ExecuteNext | src/core/team.py:92-107 | the head of the queue is removed and only its context changes, to the outcome of its run in "parallel" mode or, for any other mode string, sequential mode; an empty queue changes nothing |
| Team.AgentTeam.ExecuteTasks | src/core/team.py:90-107 | every queued context is processed in FIFO order; the queue ends empty and the table is `Drain` of the old table over the old queue |

## Left out

- Asynchrony. The model has no `await`, no blocking `asyncio.Queue.get`, no `task_done` and no real concurrency of `asyncio.gather`. Queues are sequences. Gather is an ordered map that runs every call of the zip.
- Team.Gather, Team.GatherFirstFailure, Team.ParallelFailed: when several parallel calls raise, the source propagates whichever is raised first in time. The model reports the first in list order.
- Agent processing: an agent's `process` (memory, pipeline, timeouts, logging, capability loading) is a pure function parameter. Agent state that persists between calls is not modelled.
- Coordinator planning: the coordinator's planning call is a parameter. The content of the plan it produces is not modelled; the plan is reduced to its optional "subtasks" list.
- Ids and clocks: message ids, task ids and timestamps are parameters.
- Team.AgentTeam.AssignTask: takes the task id as a parameter and requires it to be new. `assign_task` calls `self._generate_task_id()`, which no source file defines; as written that call raises `AttributeError`, which the handler turns into `TeamError("Failed to assign task: ...")`, so every submission fails and nothing is queued. The model assumes a working source of fresh ids instead and does not model that as-written failure.
- Exception texts: `str(e)` is abstracted to `ExecError` (no plan, no "subtasks" key, no members, or an agent's raised message).
- The `@monitor` decorator, logging and the error-handling utilities are not modelled.
- Float rounding: scores are exact rationals, so the model does not capture rounding differences between near-equal floating-point scores.
- Coordination.CapabilitiesOf: the source reads the capabilities of an agent it knows. The model returns the empty list for an unknown agent, which no caller reaches.
- Coordination.WorkloadScore, Coordination.AgentScore: require the workload not to be -1, the only input on which the source divides by zero. `BestAgent` and `FindBestAgent` ask this only of the agents that pass the gate, the only ones the source divides for. No derived or allocated workload is negative.
- Coordination.TeamCoordinator.OptimizeTaskAllocation: the map of lists is a Dafny `map`, so it does not keep the key insertion order of the returned dictionary.
- Team.ExecuteSubtask: requires the agent id to be a key of the member table. Both callers pass keys, so the `KeyError` path of the source is unreachable in the model.
- Malformed dictionaries (an assignment without "agent_id", a task without "id") raise `KeyError` in the source. The model's records always carry these fields.
- Message payloads, task payloads and agent outputs are string maps. Their contents are never inspected.
- `_generate_message_id` and `datetime.utcnow()` are not modelled (a time-based id source and the clock); `_generate_task_id` is called but not defined (see `Team.AgentTeam.AssignTask` above).
