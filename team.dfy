/**
 * The agent team of `src/core/team.py`: building the member agents from the
 * configuration, submitting a task (a pending context with the coordinator's
 * plan, queued and recorded), and the processing loop that takes contexts in
 * queue order and runs each plan in parallel or sequential mode.
 *
 * An agent's `process` call is a function parameter returning either an output
 * or a raised error; `asyncio.gather` is an order-preserving map over the
 * zipped (subtask, agent) pairs.
 */
module Team {
  import opened Wrappers
  import opened OrderedDicts
  import opened Ids

  /** A submitted task, a subtask or an agent's output: a free-form dictionary. */
  type Payload = map<string, string>

  // ---------------------------------------------------------------------------
  // Configuration and agents
  // ---------------------------------------------------------------------------

  datatype TeamConfig = TeamConfig(
    name: string,
    coordinatorAgent: string,
    memberAgents: seq<AgentId>,
    maxConcurrentTasks: int,
    collaborationMode: string)

  /** Defaults of the `TeamConfig` record. */
  const DefaultMaxConcurrentTasks: int := 5
  const ParallelMode: string := "parallel"
  const DefaultCollaborationMode: string := ParallelMode

  /** `TeamConfig(name, coordinator_agent, member_agents)` with the two defaulted fields left out. */
  function DefaultConfig(name: string, coordinatorAgent: string, memberAgents: seq<AgentId>): TeamConfig
  {
    TeamConfig(name, coordinatorAgent, memberAgents, DefaultMaxConcurrentTasks, DefaultCollaborationMode)
  }

  /** The part of an agent the team sets up: its configured name and capability names. */
  datatype Agent = Agent(name: string, capabilities: seq<string>)

  const CoordinatorCapabilities: seq<string> := ["coordination", "planning"]
  const MemberCapabilities: seq<string> := ["execution", "collaboration"]

  function CoordinatorOf(config: TeamConfig): Agent
  {
    Agent(config.name + "_coordinator", CoordinatorCapabilities)
  }

  function MemberOf(config: TeamConfig, id: AgentId): Agent
  {
    Agent(config.name + "_" + id, MemberCapabilities)
  }

  /** The distinct elements of `s`, each at the position of its first occurrence. */
  function Dedup<T(==)>(s: seq<T>): (r: seq<T>)
    ensures Distinct(r)
    decreases |s|
  {
    if |s| == 0 then []
    else
      var d := Dedup(s[..|s| - 1]);
      var x := s[|s| - 1];
      if x in d then d else d + [x]
  }

  /** Nothing is lost or invented: the same elements, each once. */
  lemma {:induction false} DedupMembers<T>(s: seq<T>, x: T)
    ensures x in Dedup(s) <==> x in s
    decreases |s|
  {
    if |s| > 0 {
      DedupMembers(s[..|s| - 1], x);
      assert s == s[..|s| - 1] + [s[|s| - 1]];
    }
  }

  /** Without repetitions, nothing is dropped and the order is kept. */
  lemma {:induction false} DedupOfDistinct<T>(s: seq<T>)
    requires Distinct(s)
    ensures Dedup(s) == s
    decreases |s|
  {
    if |s| > 0 {
      var p := s[..|s| - 1];
      DedupOfDistinct(p);
      assert s[|s| - 1] !in p by {
        forall j | 0 <= j < |p|
          ensures p[j] != s[|s| - 1]
        {
          assert p[j] == s[j];
        }
      }
      assert s == p + [s[|s| - 1]];
    }
  }

  /** Every entry holds the member agent of its own key. */
  predicate HoldsMembers(config: TeamConfig, agents: Dict<AgentId, Agent>)
  {
    forall j :: 0 <= j < |agents| ==> agents[j].1 == MemberOf(config, agents[j].0)
  }

  lemma SetMember(config: TeamConfig, agents: Dict<AgentId, Agent>, id: AgentId)
    requires HoldsMembers(config, agents)
    ensures HoldsMembers(config, Set(agents, id, MemberOf(config, id)))
  {
    var r := Set(agents, id, MemberOf(config, id));
    forall j | 0 <= j < |r|
      ensures r[j].1 == MemberOf(config, r[j].0)
    {
      if r[j] != (id, MemberOf(config, id)) {
        var k :| 0 <= k < |agents| && agents[k] == r[j];
      }
    }
  }

  /** One pass of the member loop keeps both loop facts. */
  lemma MemberStep(config: TeamConfig, agents: Dict<AgentId, Agent>, i: nat)
    requires i < |config.memberAgents|
    requires Keys(agents) == Dedup(config.memberAgents[..i]) && HoldsMembers(config, agents)
    ensures var id := config.memberAgents[i];
            var agents' := Set(agents, id, MemberOf(config, id));
            Keys(agents') == Dedup(config.memberAgents[..i + 1]) && HoldsMembers(config, agents')
  {
    var s := config.memberAgents;
    var p := s[..i + 1];
    assert p[..|p| - 1] == s[..i] && p[|p| - 1] == s[i];
    assert Dedup(p) == if s[i] in Dedup(s[..i]) then Dedup(s[..i]) else Dedup(s[..i]) + [s[i]];
    SetMember(config, agents, s[i]);
  }

  /**
   * The loop of `_initialize` over `member_agents`: one entry per configured
   * id, holding that member's agent. A repeated id keeps its first position.
   */
  method MemberAgents(config: TeamConfig) returns (agents: Dict<AgentId, Agent>)
    ensures Keys(agents) == Dedup(config.memberAgents)
    ensures DistinctKeys(agents)
    ensures forall i :: 0 <= i < |agents| ==> agents[i].1 == MemberOf(config, agents[i].0)
  {
    agents := [];
    for i := 0 to |config.memberAgents|
      invariant Keys(agents) == Dedup(config.memberAgents[..i])
      invariant HoldsMembers(config, agents)
    {
      var id := config.memberAgents[i];
      MemberStep(config, agents, i);
      agents := Set(agents, id, MemberOf(config, id));
    }
    assert config.memberAgents[..|config.memberAgents|] == config.memberAgents;
  }

  // ---------------------------------------------------------------------------
  // Task contexts
  // ---------------------------------------------------------------------------

  /** The status strings the code writes into a context: "pending", "completed" and "failed". */
  datatype TaskStatus = Pending | Completed | Failed

  /** A coordinator's plan; `subtasks` is `None` when the plan has no "subtasks" key. */
  datatype Plan = Plan(subtasks: Option<seq<Payload>>)

  /** What makes the processing of a context raise. */
  datatype ExecError =
    | NoPlan                         // the plan is None: subscripting it raises
    | NoSubtasks                     // the plan has no "subtasks" key
    | NoAgents                       // `list(self.agents.keys())[0]` on an empty team
    | SubtaskFailed(message: string) // an agent's `process` raised

  /**
   * A task context. `executionPlan` is `None` before planning and when the
   * coordinator's result has no plan; `results` and `error` are `None` while
   * the context has no such key.
   */
  datatype TaskContext = TaskContext(
    id: TaskId,
    status: TaskStatus,
    task: Payload,
    assignedAgents: seq<AgentId>,
    timestamp: nat,
    executionPlan: Option<Plan>,
    results: Option<seq<Payload>>,
    error: Option<ExecError>)

  /** A call that returns a value or raises an exception with a message. */
  datatype Outcome<+T> = Returned(value: T) | Raised(message: string)

  /** An agent's `process` on a subtask. */
  type Processor = (Agent, Payload) -> Outcome<Payload>

  /** The error `assign_task` raises. */
  datatype TeamError = TeamError(message: string)

  const AssignFailurePrefix: string := "Failed to assign task: "

  /** The input `_plan_execution` sends to the coordinator agent. */
  datatype PlanRequest = PlanRequest(
    task: string,
    taskContext: TaskContext,
    availableAgents: seq<AgentId>,
    collaborationMode: string)

  const PlanExecutionTask: string := "plan_execution"

  /** The coordinator's answer, reduced to its "execution_plan" entry (`None` when absent). */
  type Planner = PlanRequest -> Outcome<Option<Plan>>

  /** The context `assign_task` builds before planning. */
  function NewContext(id: TaskId, task: Payload, timestamp: nat): TaskContext
  {
    TaskContext(id, Pending, task, [], timestamp, None, None, None)
  }

  // ---------------------------------------------------------------------------
  // Running one plan
  // ---------------------------------------------------------------------------

  /** The result of running a plan: every output in order, or the error that ended it. */
  datatype RunResult = Done(results: seq<Payload>) | Aborted(error: ExecError)

  /** `execution_plan["subtasks"]`. */
  function SubtasksOf(plan: Option<Plan>): (r: Result<seq<Payload>, ExecError>)
    ensures r.Err? ==> r.error == NoPlan || r.error == NoSubtasks
  {
    match plan
    case None => Err(NoPlan)
    case Some(Plan(None)) => Err(NoSubtasks)
    case Some(Plan(Some(subtasks))) => Ok(subtasks)
  }

  /** `results` already collected, followed by the rest of a run. */
  function Extend(prefix: seq<Payload>, r: RunResult): RunResult
  {
    match r
    case Done(results) => Done(prefix + results)
    case Aborted(e) => Aborted(e)
  }

  /** `_select_agent_for_subtask`: the first member in key order, whatever the subtask. */
  function SelectAgentForSubtask(agents: Dict<AgentId, Agent>, subtask: Payload): (r: Result<AgentId, ExecError>)
    ensures r.Ok? <==> |agents| > 0
    ensures r.Ok? ==> r.value in Keys(agents) && r.value == agents[0].0
    ensures r.Err? ==> r.error == NoAgents
  {
    if |agents| == 0 then Err(NoAgents) else Ok(Keys(agents)[0])
  }

  /** `_execute_subtask`: the named member's `process` on the subtask. */
  function ExecuteSubtask(agents: Dict<AgentId, Agent>, id: AgentId, subtask: Payload, process: Processor): Outcome<Payload>
    requires id in Keys(agents)
  {
    process(Get(agents, id).value, subtask)
  }

  /** The member at position `i` is the one `_execute_subtask` runs for that position's key. */
  lemma ExecuteSubtaskAt(agents: Dict<AgentId, Agent>, i: nat, subtask: Payload, process: Processor)
    requires DistinctKeys(agents) && i < |agents|
    ensures agents[i].0 in Keys(agents)
    ensures ExecuteSubtask(agents, agents[i].0, subtask, process) == process(agents[i].1, subtask)
  {
    assert Keys(agents)[i] == agents[i].0;
    GetAt(agents, i);
  }

  /**
   * `asyncio.gather` over the outcomes in order: every value when none raised,
   * otherwise the first raised error in list order.
   */
  function Gather(outcomes: seq<Outcome<Payload>>): (r: RunResult)
    ensures r.Done? ==> |r.results| == |outcomes|
    ensures r.Aborted? ==> r.error.SubtaskFailed?
  {
    if |outcomes| == 0 then Done([])
    else
      match outcomes[0]
      case Raised(m) => Aborted(SubtaskFailed(m))
      case Returned(v) => Extend([v], Gather(outcomes[1..]))
  }

  /** Gather completes exactly when no call raised, with each call's value at its position. */
  lemma {:induction false} GatherDone(outcomes: seq<Outcome<Payload>>)
    ensures Gather(outcomes).Done? <==> forall i :: 0 <= i < |outcomes| ==> outcomes[i].Returned?
    ensures Gather(outcomes).Done? ==>
              forall i :: 0 <= i < |outcomes| ==> Gather(outcomes).results[i] == outcomes[i].value
  {
    if |outcomes| > 0 {
      var rest := outcomes[1..];
      GatherDone(rest);
      assert forall i :: 0 < i < |outcomes| ==> outcomes[i] == rest[i - 1];
    }
  }

  /** Gather fails with the error of the first call that raised. */
  lemma {:induction false} GatherFirstFailure(outcomes: seq<Outcome<Payload>>, k: nat)
    requires k < |outcomes| && outcomes[k].Raised?
    requires forall j :: 0 <= j < k ==> outcomes[j].Returned?
    ensures Gather(outcomes) == Aborted(SubtaskFailed(outcomes[k].message))
  {
    if k > 0 {
      var rest := outcomes[1..];
      assert forall j :: 0 <= j < k - 1 ==> rest[j] == outcomes[j + 1];
      GatherFirstFailure(rest, k - 1);
    }
  }

  function Min(a: int, b: int): int
  {
    if a <= b then a else b
  }

  /** The calls of `_execute_parallel`: `zip(subtasks, self.agents.keys())`, position by position. */
  function ParallelCalls(agents: Dict<AgentId, Agent>, subtasks: seq<Payload>, process: Processor): (o: seq<Outcome<Payload>>)
    ensures |o| == Min(|subtasks|, |agents|)
  {
    var n := Min(|subtasks|, |agents|);
    seq(n, i requires 0 <= i < n => ExecuteSubtask(agents, Keys(agents)[i], subtasks[i], process))
  }

  /** `_execute_parallel` on a plan's subtasks. */
  function Parallel(agents: Dict<AgentId, Agent>, subtasks: seq<Payload>, process: Processor): RunResult
  {
    Gather(ParallelCalls(agents, subtasks, process))
  }

  /** The i-th parallel call is member i's `process` on subtask i. */
  lemma ParallelCallsAt(agents: Dict<AgentId, Agent>, subtasks: seq<Payload>, process: Processor)
    requires DistinctKeys(agents)
    ensures forall i :: 0 <= i < Min(|subtasks|, |agents|) ==>
              ParallelCalls(agents, subtasks, process)[i] == process(agents[i].1, subtasks[i])
  {
    forall i | 0 <= i < Min(|subtasks|, |agents|)
      ensures ParallelCalls(agents, subtasks, process)[i] == process(agents[i].1, subtasks[i])
    {
      ExecuteSubtaskAt(agents, i, subtasks[i], process);
    }
  }

  /**
   * Parallel mode completes exactly when no member raised; then it holds
   * `min(|subtasks|, |agents|)` results, the i-th being member i's output on subtask i.
   */
  lemma ParallelCompleted(agents: Dict<AgentId, Agent>, subtasks: seq<Payload>, process: Processor)
    requires DistinctKeys(agents)
    ensures Parallel(agents, subtasks, process).Done? <==>
              forall i :: 0 <= i < Min(|subtasks|, |agents|) ==> process(agents[i].1, subtasks[i]).Returned?
    ensures Parallel(agents, subtasks, process).Done? ==>
              |Parallel(agents, subtasks, process).results| == Min(|subtasks|, |agents|) &&
              forall i :: 0 <= i < Min(|subtasks|, |agents|) ==>
                Parallel(agents, subtasks, process).results[i] == process(agents[i].1, subtasks[i]).value
  {
    ParallelCallsAt(agents, subtasks, process);
    GatherDone(ParallelCalls(agents, subtasks, process));
  }

  /** Parallel mode fails with the error of the first pair, in zip order, whose member raised. */
  lemma ParallelFailed(agents: Dict<AgentId, Agent>, subtasks: seq<Payload>, process: Processor, k: nat)
    requires DistinctKeys(agents) && k < Min(|subtasks|, |agents|)
    requires process(agents[k].1, subtasks[k]).Raised?
    requires forall j :: 0 <= j < k ==> process(agents[j].1, subtasks[j]).Returned?
    ensures Parallel(agents, subtasks, process) == Aborted(SubtaskFailed(process(agents[k].1, subtasks[k]).message))
  {
    ParallelCallsAt(agents, subtasks, process);
    GatherFirstFailure(ParallelCalls(agents, subtasks, process), k);
  }

  /** A team without members completes any plan in parallel mode, with no results. */
  lemma ParallelEmptyTeam(agents: Dict<AgentId, Agent>, subtasks: seq<Payload>, process: Processor)
    requires |agents| == 0
    ensures Parallel(agents, subtasks, process) == Done([])
  {
    assert ParallelCalls(agents, subtasks, process) == [];
  }

  /**
   * `_execute_sequential` on a plan's subtasks: for each subtask in order, select
   * the agent and run it; the first error ends the run.
   */
  function Sequential(agents: Dict<AgentId, Agent>, subtasks: seq<Payload>, process: Processor): RunResult
    decreases |subtasks|
  {
    if |subtasks| == 0 then Done([])
    else
      match SelectAgentForSubtask(agents, subtasks[0])
      case Err(e) => Aborted(e)
      case Ok(id) =>
        match ExecuteSubtask(agents, id, subtasks[0], process)
        case Raised(m) => Aborted(SubtaskFailed(m))
        case Returned(v) => Extend([v], Sequential(agents, subtasks[1..], process))
  }

  /** The subtasks sequential mode hands to an agent, in the order it hands them. */
  function SequentialDispatched(agents: Dict<AgentId, Agent>, subtasks: seq<Payload>, process: Processor): seq<Payload>
    decreases |subtasks|
  {
    if |subtasks| == 0 then []
    else
      match SelectAgentForSubtask(agents, subtasks[0])
      case Err(_) => []
      case Ok(id) =>
        match ExecuteSubtask(agents, id, subtasks[0], process)
        case Raised(_) => [subtasks[0]]
        case Returned(_) => [subtasks[0]] + SequentialDispatched(agents, subtasks[1..], process)
  }

  /** One step of sequential mode from subtask `i` on. */
  lemma SequentialFrom(agents: Dict<AgentId, Agent>, subtasks: seq<Payload>, i: nat, process: Processor)
    requires i < |subtasks|
    ensures |agents| == 0 ==>
              Sequential(agents, subtasks[i..], process) == Aborted(NoAgents)
              && SequentialDispatched(agents, subtasks[i..], process) == []
    ensures |agents| > 0 ==>
              var o := ExecuteSubtask(agents, Keys(agents)[0], subtasks[i], process);
              Sequential(agents, subtasks[i..], process)
                == (if o.Raised? then Aborted(SubtaskFailed(o.message))
                    else Extend([o.value], Sequential(agents, subtasks[i + 1..], process)))
              && SequentialDispatched(agents, subtasks[i..], process)
                == (if o.Raised? then [subtasks[i]]
                    else [subtasks[i]] + SequentialDispatched(agents, subtasks[i + 1..], process))
  {
    assert subtasks[i..][0] == subtasks[i];
    assert subtasks[i..][1..] == subtasks[i + 1..];
  }

  lemma ExtendAppend(prefix: seq<Payload>, v: Payload, r: RunResult)
    ensures Extend(prefix, Extend([v], r)) == Extend(prefix + [v], r)
  {
    if r.Done? {
      assert prefix + ([v] + r.results) == (prefix + [v]) + r.results;
    }
  }

  /** The first member's `process` on each subtask, in plan order. */
  function OnFirstMember(agents: Dict<AgentId, Agent>, subtasks: seq<Payload>, process: Processor): (o: seq<Outcome<Payload>>)
    requires |agents| > 0
    ensures |o| == |subtasks|
  {
    seq(|subtasks|, i requires 0 <= i < |subtasks| => process(agents[0].1, subtasks[i]))
  }

  /** Sequential mode is a gather over the first member's calls, and dispatches what it runs. */
  lemma {:induction false} SequentialOnFirstMember(agents: Dict<AgentId, Agent>, subtasks: seq<Payload>, process: Processor)
    requires |agents| > 0
    ensures Sequential(agents, subtasks, process) == Gather(OnFirstMember(agents, subtasks, process))
    decreases |subtasks|
  {
    if |subtasks| > 0 {
      var o := OnFirstMember(agents, subtasks, process);
      assert Keys(agents)[0] == agents[0].0;
      assert ExecuteSubtask(agents, agents[0].0, subtasks[0], process) == o[0];
      SequentialOnFirstMember(agents, subtasks[1..], process);
      assert OnFirstMember(agents, subtasks[1..], process) == o[1..];
    }
  }

  /**
   * Sequential mode completes exactly when the first member returns on every
   * subtask; then there is one result per subtask, in plan order, and every
   * subtask was handed to that member.
   */
  lemma {:induction false} SequentialCompleted(agents: Dict<AgentId, Agent>, subtasks: seq<Payload>, process: Processor)
    requires |agents| > 0
    ensures Sequential(agents, subtasks, process).Done? <==>
              forall i :: 0 <= i < |subtasks| ==> process(agents[0].1, subtasks[i]).Returned?
    ensures Sequential(agents, subtasks, process).Done? ==>
              |Sequential(agents, subtasks, process).results| == |subtasks| &&
              (forall i :: 0 <= i < |subtasks| ==>
                 Sequential(agents, subtasks, process).results[i] == process(agents[0].1, subtasks[i]).value) &&
              SequentialDispatched(agents, subtasks, process) == subtasks
  {
    SequentialOnFirstMember(agents, subtasks, process);
    GatherDone(OnFirstMember(agents, subtasks, process));
    if Sequential(agents, subtasks, process).Done? {
      var o := OnFirstMember(agents, subtasks, process);
      assert forall i :: 0 <= i < |subtasks| ==> o[i] == process(agents[0].1, subtasks[i]);
      SequentialDispatchesAll(agents, subtasks, process);
    }
  }

  lemma {:induction false} SequentialDispatchesAll(agents: Dict<AgentId, Agent>, subtasks: seq<Payload>, process: Processor)
    requires |agents| > 0
    requires forall i :: 0 <= i < |subtasks| ==> process(agents[0].1, subtasks[i]).Returned?
    ensures SequentialDispatched(agents, subtasks, process) == subtasks
    decreases |subtasks|
  {
    if |subtasks| > 0 {
      assert Keys(agents)[0] == agents[0].0;
      assert forall i :: 0 <= i < |subtasks| - 1 ==> subtasks[1..][i] == subtasks[i + 1];
      SequentialDispatchesAll(agents, subtasks[1..], process);
    }
  }

  /**
   * When subtask k is the first on which the member raises, sequential mode
   * fails with that error and the subtasks after k are never handed out.
   */
  lemma {:induction false} SequentialStopsAtFailure(agents: Dict<AgentId, Agent>, subtasks: seq<Payload>, process: Processor, k: nat)
    requires |agents| > 0 && k < |subtasks|
    requires process(agents[0].1, subtasks[k]).Raised?
    requires forall j :: 0 <= j < k ==> process(agents[0].1, subtasks[j]).Returned?
    ensures Sequential(agents, subtasks, process) == Aborted(SubtaskFailed(process(agents[0].1, subtasks[k]).message))
    ensures SequentialDispatched(agents, subtasks, process) == subtasks[..k + 1]
    decreases k
  {
    assert Keys(agents)[0] == agents[0].0;
    if k > 0 {
      var rest := subtasks[1..];
      assert forall j :: 0 <= j < k - 1 ==> rest[j] == subtasks[j + 1];
      SequentialStopsAtFailure(agents, rest, process, k - 1);
      assert subtasks[..k + 1] == [subtasks[0]] + rest[..k];
    }
  }

  /** On a team without members, sequential mode fails before handing out anything. */
  lemma SequentialEmptyTeam(agents: Dict<AgentId, Agent>, subtasks: seq<Payload>, process: Processor)
    requires |agents| == 0 && |subtasks| > 0
    ensures Sequential(agents, subtasks, process) == Aborted(NoAgents)
    ensures SequentialDispatched(agents, subtasks, process) == []
  {
  }

  /** The method of the mode on a context's plan. Any mode but "parallel" is sequential. */
  function RunContext(config: TeamConfig, agents: Dict<AgentId, Agent>, context: TaskContext, process: Processor): RunResult
  {
    match SubtasksOf(context.executionPlan)
    case Err(e) => Aborted(e)
    case Ok(subtasks) =>
      if config.collaborationMode == ParallelMode then Parallel(agents, subtasks, process)
      else Sequential(agents, subtasks, process)
  }

  /**
   * The writes into a context after its run: on completion `results` and status
   * "completed"; on an error status "failed" and `error`, `results` untouched.
   */
  function Record(context: TaskContext, r: RunResult): (c: TaskContext)
    ensures c.status != Pending
    ensures c.status == Completed <==> r.Done?
    ensures r.Done? ==> c.results == Some(r.results) && c.error == context.error
    ensures r.Aborted? ==> c.error == Some(r.error) && c.results == context.results
    ensures c.id == context.id && c.task == context.task && c.assignedAgents == context.assignedAgents
    ensures c.timestamp == context.timestamp && c.executionPlan == context.executionPlan
  {
    match r
    case Done(results) => context.(status := Completed, results := Some(results))
    case Aborted(e) => context.(status := Failed, error := Some(e))
  }

  /** A context as processing leaves it. */
  function Finish(config: TeamConfig, agents: Dict<AgentId, Agent>, context: TaskContext, process: Processor): TaskContext
  {
    Record(context, RunContext(config, agents, context, process))
  }

  /** The task table after processing the queued ids in order. */
  function Drain(config: TeamConfig, agents: Dict<AgentId, Agent>, active: map<TaskId, TaskContext>,
                 queue: seq<TaskId>, process: Processor): (r: map<TaskId, TaskContext>)
    requires forall i :: 0 <= i < |queue| ==> queue[i] in active
    ensures r.Keys == active.Keys
    decreases |queue|
  {
    if |queue| == 0 then active
    else
      var id := queue[0];
      Drain(config, agents, active[id := Finish(config, agents, active[id], process)], queue[1..], process)
  }

  /** Processing the head of the queue leaves the rest of the drain to do. */
  lemma DrainStep(config: TeamConfig, agents: Dict<AgentId, Agent>, active: map<TaskId, TaskContext>,
                  queue: seq<TaskId>, active': map<TaskId, TaskContext>, queue': seq<TaskId>, process: Processor)
    requires forall i :: 0 <= i < |queue| ==> queue[i] in active
    requires |queue| > 0 && queue' == queue[1..]
    requires active' == active[queue[0] := Finish(config, agents, active[queue[0]], process)]
    ensures forall i :: 0 <= i < |queue'| ==> queue'[i] in active'
    ensures Drain(config, agents, active, queue, process) == Drain(config, agents, active', queue', process)
  {
  }

  /**
   * Each queued context ends as its own run leaves it, whatever happened to the
   * others, and a context that was not queued is left alone.
   */
  lemma {:induction false} DrainEach(config: TeamConfig, agents: Dict<AgentId, Agent>, active: map<TaskId, TaskContext>,
                                     queue: seq<TaskId>, process: Processor)
    requires forall i :: 0 <= i < |queue| ==> queue[i] in active
    requires Distinct(queue)
    ensures forall i :: 0 <= i < |queue| ==>
              Drain(config, agents, active, queue, process)[queue[i]] == Finish(config, agents, active[queue[i]], process)
    ensures forall t :: t in active && t !in queue ==> Drain(config, agents, active, queue, process)[t] == active[t]
    decreases |queue|
  {
    if |queue| > 0 {
      var id := queue[0];
      var rest := queue[1..];
      var active' := active[id := Finish(config, agents, active[id], process)];
      assert forall i :: 0 <= i < |rest| ==> rest[i] == queue[i + 1];
      assert id !in rest by {
        forall i | 0 <= i < |rest|
          ensures rest[i] != id
        {
          assert queue[0] != queue[i + 1];
        }
      }
      DrainEach(config, agents, active', rest, process);
      forall i | 0 < i < |queue|
        ensures active'[queue[i]] == active[queue[i]]
      {
        assert queue[0] != queue[i];
      }
    }
  }

  /** Moving the head of the queue to the end of the executed ids keeps their concatenation. */
  lemma MoveHead(done: seq<TaskId>, queue: seq<TaskId>)
    requires |queue| > 0
    ensures done + queue == (done + [queue[0]]) + queue[1..]
  {
    assert queue == [queue[0]] + queue[1..];
  }

  // ---------------------------------------------------------------------------
  // The team
  // ---------------------------------------------------------------------------

  /**
   * `AgentTeam`. The queue holds task ids: the one context object shared by the
   * queue and `active_tasks` is the `activeTasks` entry under that id.
   * `executed` records the ids in the order the loop took them.
   */
  class AgentTeam {
    const config: TeamConfig
    const agents: Dict<AgentId, Agent>
    const coordinator: Agent
    var activeTasks: map<TaskId, TaskContext>
    var taskQueue: seq<TaskId>
    ghost var executed: seq<TaskId>

    /**
     * Members have distinct keys, each context sits under its own id, and every
     * queued id names a distinct pending context.
     */
    ghost predicate Valid()
      reads this
    {
      DistinctKeys(agents)
      && Distinct(taskQueue)
      && (forall t :: t in activeTasks ==> activeTasks[t].id == t)
      && (forall i :: 0 <= i < |taskQueue| ==> taskQueue[i] in activeTasks && activeTasks[taskQueue[i]].status == Pending)
    }

    /** `__init__` and `_initialize`. */
    constructor (config: TeamConfig)
      ensures Valid()
      ensures this.config == config
      ensures coordinator == CoordinatorOf(config)
      ensures Keys(agents) == Dedup(config.memberAgents)
      ensures forall i :: 0 <= i < |agents| ==> agents[i].1 == MemberOf(config, agents[i].0)
      ensures activeTasks == map[] && taskQueue == [] && executed == []
    {
      this.config := config;
      coordinator := CoordinatorOf(config);
      var members := MemberAgents(config);
      agents := members;
      activeTasks := map[];
      taskQueue := [];
      executed := [];
    }

    /**
     * `assign_task`, with the fresh id, the current time and the coordinator
     * agent as parameters.
     */
    method AssignTask(task: Payload, id: TaskId, timestamp: nat, planner: Planner) returns (r: Result<TaskId, TeamError>)
      requires Valid() && id !in activeTasks
      modifies this
      ensures Valid()
      ensures executed == old(executed)
      ensures var outcome := planner(PlanRequest(PlanExecutionTask, NewContext(id, task, timestamp), Keys(agents), config.collaborationMode));
              match outcome
              case Raised(m) =>
                r == Err(TeamError(AssignFailurePrefix + m))
                && activeTasks == old(activeTasks) && taskQueue == old(taskQueue)
              case Returned(plan) =>
                r == Ok(id)
                && activeTasks == old(activeTasks)[id := NewContext(id, task, timestamp).(executionPlan := plan)]
                && taskQueue == old(taskQueue) + [id]
    {
      var context := NewContext(id, task, timestamp);
      var outcome := planner(PlanRequest(PlanExecutionTask, context, Keys(agents), config.collaborationMode));
      match outcome
      case Raised(m) =>
        r := Err(TeamError(AssignFailurePrefix + m));
      case Returned(plan) =>
        context := context.(executionPlan := plan);
        assert forall i :: 0 <= i < |taskQueue| ==> taskQueue[i] != id;
        taskQueue := taskQueue + [id];
        activeTasks := activeTasks[id := context];
        r := Ok(id);
    }

    /** `_execute_sequential`: the loop over the plan's subtasks, collecting their outputs. */
    method ExecuteSequential(plan: Option<Plan>, process: Processor) returns (r: RunResult, ghost dispatched: seq<Payload>)
      ensures SubtasksOf(plan).Err? ==> r == Aborted(SubtasksOf(plan).error)
      ensures SubtasksOf(plan).Ok? ==> r == Sequential(agents, SubtasksOf(plan).value, process)
      ensures SubtasksOf(plan).Err? ==> dispatched == []
      ensures SubtasksOf(plan).Ok? ==> dispatched == SequentialDispatched(agents, SubtasksOf(plan).value, process)
    {
      dispatched := [];
      var subtasksOrError := SubtasksOf(plan);
      if subtasksOrError.Err? {
        return Aborted(subtasksOrError.error), dispatched;
      }
      var subtasks := subtasksOrError.value;
      var results: seq<Payload> := [];
      for i := 0 to |subtasks|
        invariant Sequential(agents, subtasks, process) == Extend(results, Sequential(agents, subtasks[i..], process))
        invariant SequentialDispatched(agents, subtasks, process)
                  == dispatched + SequentialDispatched(agents, subtasks[i..], process)
      {
        var subtask := subtasks[i];
        SequentialFrom(agents, subtasks, i, process);
        var selected := SelectAgentForSubtask(agents, subtask);
        if selected.Err? {
          return Aborted(selected.error), dispatched;
        }
        var outcome := ExecuteSubtask(agents, selected.value, subtask, process);
        dispatched := dispatched + [subtask];
        if outcome.Raised? {
          return Aborted(SubtaskFailed(outcome.message)), dispatched;
        }
        ExtendAppend(results, outcome.value, Sequential(agents, subtasks[i + 1..], process));
        results := results + [outcome.value];
      }
      assert subtasks[|subtasks|..] == [];
      r := Done(results);
    }

    /**
     * One pass of `execute_tasks`: take the context at the head of the queue,
     * run its plan in the configured mode and record the outcome in it. An
     * empty queue, where the source waits, changes nothing.
     */
    method ExecuteNext(process: Processor) returns (ran: bool)
      requires Valid()
      modifies this
      ensures Valid()
      ensures ran <==> old(taskQueue) != []
      ensures !ran ==> activeTasks == old(activeTasks) && taskQueue == old(taskQueue) && executed == old(executed)
      ensures ran ==>
                var id := old(taskQueue)[0];
                taskQueue == old(taskQueue)[1..]
                && activeTasks == old(activeTasks)[id := Finish(config, agents, old(activeTasks)[id], process)]
                && executed == old(executed) + [id]
    {
      if |taskQueue| == 0 {
        return false;
      }
      var id := taskQueue[0];
      var context := activeTasks[id];
      var outcome: RunResult;
      if config.collaborationMode == ParallelMode {
        outcome := match SubtasksOf(context.executionPlan)
          case Err(e) => Aborted(e)
          case Ok(subtasks) => Parallel(agents, subtasks, process);
      } else {
        ghost var dispatched;
        outcome, dispatched := ExecuteSequential(context.executionPlan, process);
      }
      assert forall i :: 0 < i < |taskQueue| ==> taskQueue[i] != id;
      activeTasks := activeTasks[id := Record(context, outcome)];
      taskQueue := taskQueue[1..];
      executed := executed + [id];
      ran := true;
    }

    /** `execute_tasks` until the queue is empty: every queued context, in queue order. */
    method ExecuteTasks(process: Processor)
      requires Valid()
      modifies this
      ensures Valid()
      ensures taskQueue == []
      ensures executed == old(executed) + old(taskQueue)
      ensures activeTasks == Drain(config, agents, old(activeTasks), old(taskQueue), process)
    {
      ghost var queue0 := taskQueue;
      ghost var active0 := activeTasks;
      ghost var executed0 := executed;
      while |taskQueue| > 0
        invariant Valid()
        invariant forall i :: 0 <= i < |queue0| ==> queue0[i] in active0
        invariant executed0 + queue0 == executed + taskQueue
        invariant Drain(config, agents, active0, queue0, process) == Drain(config, agents, activeTasks, taskQueue, process)
        decreases |taskQueue|
      {
        ghost var queue := taskQueue;
        ghost var active := activeTasks;
        ghost var done := executed;
        var ran := ExecuteNext(process);
        DrainStep(config, agents, active, queue, activeTasks, taskQueue, process);
        MoveHead(done, queue);
      }
    }
  }
}
