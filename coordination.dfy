/**
 * The team coordinator of `src/core/coordination.py`: eligibility of an agent
 * for a task, the three sub-scores and their weighted combination, the
 * argmax over the agents in `agent_status` order, workload derivation from
 * `task_assignments`, the batch allocator and the broadcast queue.
 *
 * Scores are exact rationals (`real`), not floating point.
 */
module Coordination {
  import opened Wrappers
  import opened OrderedDicts
  import opened Ids

  type Capability = string

  // ---------------------------------------------------------------------------
  // Messages
  // ---------------------------------------------------------------------------

  /**
   * The six message kinds, whose enumeration values are "task_assignment",
   * "status_update", "knowledge_share", "request_help", "provide_feedback"
   * and "system_alert".
   */
  datatype MessageType =
    | TaskAssignment
    | StatusUpdate
    | KnowledgeShare
    | RequestHelp
    | ProvideFeedback
    | SystemAlert

  /** A message's free-form `content` dictionary; opaque to the coordinator. */
  type Content = map<string, string>

  datatype Message = Message(
    id: string,
    kind: MessageType,
    sender: AgentId,
    receiver: AgentId,
    content: Content,
    timestamp: nat,
    priority: int,
    requiresResponse: bool)

  /** The receiver that stands for every team member. */
  const BroadcastReceiver: AgentId := "all"
  /** Defaults of the `Message` record. */
  const DefaultPriority: int := 1
  const DefaultRequiresResponse: bool := false

  // ---------------------------------------------------------------------------
  // Agents, tasks and the scorer's inputs
  // ---------------------------------------------------------------------------

  /**
   * The status dictionary of one agent. A missing "available" key is `None`;
   * a missing "capabilities" key is the empty list. An empty status dictionary
   * is `AgentStatus(None, [])`.
   */
  datatype AgentStatus = AgentStatus(available: Option<bool>, capabilities: seq<Capability>)

  /** A task: its "id" and its "required_capabilities" (missing means none). */
  datatype Task = Task(id: TaskId, requiredCapabilities: seq<Capability>)

  /** One entry of `task_assignments`: the assigned agent and the task. */
  datatype Assignment = Assignment(agentId: AgentId, task: Task)

  /** An agent's historical metrics, by metric name. */
  type Metrics = map<string, real>

  /**
   * What the scorer reads: agent statuses in order, metrics and the working
   * workloads. A status table from the coordinator has distinct keys
   * (`TeamCoordinator.Valid`); no result about scoring depends on it.
   */
  datatype Snapshot = Snapshot(
    agentStatus: Dict<AgentId, AgentStatus>,
    performanceMetrics: map<AgentId, Metrics>,
    workloads: map<AgentId, real>)

  function SetOf(s: seq<Capability>): set<Capability>
  {
    set c | c in s
  }

  /** `_can_handle_task`: known, available, and every required capability present. */
  predicate CanHandleTask(agentStatus: Dict<AgentId, AgentStatus>, agentId: AgentId, task: Task)
  {
    match Get(agentStatus, agentId)
    case None => false
    case Some(status) =>
      status.available == Some(true) && SetOf(task.requiredCapabilities) <= SetOf(status.capabilities)
  }

  /** An agent that is unknown, or whose "available" flag is missing or false, is never eligible. */
  lemma UnknownOrUnavailableCannotHandle(agentStatus: Dict<AgentId, AgentStatus>, agentId: AgentId, task: Task)
    ensures Get(agentStatus, agentId).None? ==> !CanHandleTask(agentStatus, agentId, task)
    ensures (Get(agentStatus, agentId).Some? && Get(agentStatus, agentId).value.available != Some(true))
              ==> !CanHandleTask(agentStatus, agentId, task)
  {
  }

  /** Eligibility is a hard gate: each required capability must be among the agent's. */
  lemma EligibleHasEveryCapability(agentStatus: Dict<AgentId, AgentStatus>, agentId: AgentId, task: Task)
    requires CanHandleTask(agentStatus, agentId, task)
    ensures Get(agentStatus, agentId).Some?
    ensures forall c :: c in task.requiredCapabilities ==> c in Get(agentStatus, agentId).value.capabilities
  {
    var status := Get(agentStatus, agentId).value;
    forall c | c in task.requiredCapabilities ensures c in status.capabilities {
      assert c in SetOf(task.requiredCapabilities);
    }
  }

  /** An available agent with capabilities {A} is rejected for a task requiring {A, B}. */
  lemma PartialCapabilitiesRejected()
    ensures !CanHandleTask([("a1", AgentStatus(Some(true), ["A"]))], "a1", Task("t1", ["A", "B"]))
  {
    assert "B" in SetOf(["A", "B"]);
    assert "B" !in SetOf(["A"]);
  }

  /** `self.agent_status[agent_id].get("capabilities", [])` for a known agent. */
  function CapabilitiesOf(agentStatus: Dict<AgentId, AgentStatus>, agentId: AgentId): seq<Capability>
  {
    match Get(agentStatus, agentId)
    case None => []
    case Some(status) => status.capabilities
  }

  lemma SubsetSize(x: set<Capability>, y: set<Capability>)
    requires x <= y
    ensures |x| <= |y|
    ensures |x| == |y| ==> x == y
  {
    assert y == x + (y - x);
    assert |y| == |x| + |y - x|;
    if |x| == |y| {
      assert |y - x| == 0;
      assert y - x == {};
    }
  }

  lemma QuotientBounds(a: real, b: real)
    requires 0.0 <= a <= b && b > 0.0
    ensures 0.0 <= a / b <= 1.0
    ensures a / b == 1.0 <==> a == b
  {
    var q := a / b;
    assert q * b == a;
  }

  /**
   * `_calculate_capability_match`: the fraction of the required capabilities
   * the agent has; 1.0 when nothing is required.
   */
  function CapabilityMatch(agentCapabilities: set<Capability>, required: set<Capability>): (r: real)
    ensures 0.0 <= r <= 1.0
    ensures required == {} ==> r == 1.0
    ensures r == 1.0 <==> required <= agentCapabilities
  {
    if |required| == 0 then 1.0
    else
      var common := agentCapabilities * required;
      SubsetSize(common, required);
      QuotientBounds(|common| as real, |required| as real);
      assert common == required <==> required <= agentCapabilities;
      (|common| as real) / (|required| as real)
  }

  /** Every agent that passes the eligibility gate has a full capability match. */
  lemma EligibleMatchesFully(agentStatus: Dict<AgentId, AgentStatus>, agentId: AgentId, task: Task)
    requires CanHandleTask(agentStatus, agentId, task)
    ensures CapabilityMatch(SetOf(CapabilitiesOf(agentStatus, agentId)), SetOf(task.requiredCapabilities)) == 1.0
  {
  }

  /** `workloads.get(agent_id, 0)`. */
  function WorkloadOf(workloads: map<AgentId, real>, agentId: AgentId): real
  {
    if agentId in workloads then workloads[agentId] else 0.0
  }

  predicate NonNegative(workloads: map<AgentId, real>)
  {
    forall a :: a in workloads ==> workloads[a] >= 0.0
  }

  /** The workload sub-score `1 / (1 + w)`. */
  function WorkloadScore(w: real): (r: real)
    requires w != -1.0
    ensures w >= 0.0 ==> 0.0 < r <= 1.0
    ensures w == 0.0 ==> r == 1.0
  {
    1.0 / (1.0 + w)
  }

  /** The workload sub-score strictly decreases as the workload grows from 0 upward. */
  lemma WorkloadScoreDecreasing(w1: real, w2: real)
    requires 0.0 <= w1 < w2
    ensures WorkloadScore(w2) < WorkloadScore(w1)
  {
    var s1, s2 := WorkloadScore(w1), WorkloadScore(w2);
    assert s1 * (1.0 + w1) == 1.0;
    assert s2 * (1.0 + w2) == 1.0;
    assert s2 * (1.0 + w1) < s2 * (1.0 + w2);
  }

  /** The metric weights, in the order the source sums them. */
  const PerformanceWeights: seq<(string, real)> :=
    [("task_completion_rate", 0.4), ("quality_score", 0.3), ("cooperation_score", 0.3)]
  /** The value of a metric an agent has no record of. */
  const DefaultMetric: real := 0.5
  /** The score of an agent with no metrics at all. */
  const ColdStartScore: real := 0.5

  function MetricOr(m: Metrics, name: string): real
  {
    if name in m then m[name] else DefaultMetric
  }

  /** `sum(metrics.get(metric, 0.5) * weight for metric, weight in weights.items())`. */
  function WeightedSum(m: Metrics, weights: seq<(string, real)>): real
  {
    if |weights| == 0 then 0.0
    else MetricOr(m, weights[0].0) * weights[0].1 + WeightedSum(m, weights[1..])
  }

  function TotalWeight(weights: seq<(string, real)>): real
  {
    if |weights| == 0 then 0.0 else weights[0].1 + TotalWeight(weights[1..])
  }

  /** Every metric the weights read, present or defaulted, lies in [0, 1]; other metrics are not constrained. */
  predicate ReadsInUnitRange(m: Metrics, weights: seq<(string, real)>)
  {
    forall i :: 0 <= i < |weights| ==> 0.0 <= MetricOr(m, weights[i].0) <= 1.0
  }

  lemma ScaledBounds(v: real, w: real)
    requires 0.0 <= v <= 1.0 && 0.0 <= w
    ensures 0.0 <= v * w <= w
  {
    assert w - v * w == (1.0 - v) * w;
  }

  /** With non-negative weights and the metrics they read in [0,1], the weighted sum lies in [0, total weight]. */
  lemma {:induction false} WeightedSumBounds(m: Metrics, weights: seq<(string, real)>)
    requires ReadsInUnitRange(m, weights)
    requires forall i :: 0 <= i < |weights| ==> weights[i].1 >= 0.0
    ensures 0.0 <= WeightedSum(m, weights) <= TotalWeight(weights)
  {
    if |weights| > 0 {
      var v, w := MetricOr(m, weights[0].0), weights[0].1;
      var rest := weights[1..];
      assert forall i :: 0 <= i < |rest| ==> rest[i] == weights[i + 1];
      WeightedSumBounds(m, rest);
      ScaledBounds(v, w);
      assert WeightedSum(m, weights) == v * w + WeightedSum(m, rest);
      assert TotalWeight(weights) == w + TotalWeight(rest);
    }
  }

  /** When every weighted metric has the same value `v`, the weighted sum is `v` times the total weight. */
  lemma {:induction false} WeightedSumUniform(m: Metrics, weights: seq<(string, real)>, v: real)
    requires forall i :: 0 <= i < |weights| ==> MetricOr(m, weights[i].0) == v
    ensures WeightedSum(m, weights) == v * TotalWeight(weights)
  {
    if |weights| > 0 {
      WeightedSumUniform(m, weights[1..], v);
    }
  }

  /** The weighted sum depends only on the metrics the weights read. */
  lemma {:induction false} WeightedSumSameReads(m1: Metrics, m2: Metrics, weights: seq<(string, real)>)
    requires forall i :: 0 <= i < |weights| ==> MetricOr(m1, weights[i].0) == MetricOr(m2, weights[i].0)
    ensures WeightedSum(m1, weights) == WeightedSum(m2, weights)
  {
    if |weights| > 0 {
      var rest := weights[1..];
      assert forall i :: 0 <= i < |rest| ==> rest[i] == weights[i + 1];
      WeightedSumSameReads(m1, m2, rest);
    }
  }

  /** `_get_agent_performance_score`. */
  function PerformanceScore(performanceMetrics: map<AgentId, Metrics>, agentId: AgentId): (r: real)
    ensures (agentId !in performanceMetrics || |performanceMetrics[agentId]| == 0) ==> r == ColdStartScore
    ensures (agentId in performanceMetrics ==> ReadsInUnitRange(performanceMetrics[agentId], PerformanceWeights))
            ==> 0.0 <= r <= 1.0
  {
    var m := if agentId in performanceMetrics then performanceMetrics[agentId] else map[];
    if |m| == 0 then ColdStartScore
    else
      assert ReadsInUnitRange(m, PerformanceWeights) ==> 0.0 <= WeightedSum(m, PerformanceWeights) <= 1.0 by {
        if ReadsInUnitRange(m, PerformanceWeights) { WeightedSumBounds(m, PerformanceWeights); }
      }
      WeightedSum(m, PerformanceWeights)
  }

  /**
   * Because the weights sum to 1, an agent whose three weighted metrics all
   * equal `v` (present or defaulted) scores exactly `v`; in particular metrics
   * that name none of the three score the neutral 0.5.
   */
  lemma PerformanceScoreOfUniformMetrics(performanceMetrics: map<AgentId, Metrics>, agentId: AgentId, v: real)
    requires agentId in performanceMetrics && |performanceMetrics[agentId]| > 0
    requires forall i :: 0 <= i < |PerformanceWeights| ==> MetricOr(performanceMetrics[agentId], PerformanceWeights[i].0) == v
    ensures PerformanceScore(performanceMetrics, agentId) == v
  {
    WeightedSumUniform(performanceMetrics[agentId], PerformanceWeights, v);
  }

  /**
   * A metric other than the three weighted ones, such as a latency of 250,
   * does not change the score of an agent that already has metrics.
   */
  lemma UnweightedMetricIgnored(performanceMetrics: map<AgentId, Metrics>, agentId: AgentId, name: string, v: real)
    requires agentId in performanceMetrics && |performanceMetrics[agentId]| > 0
    requires forall i :: 0 <= i < |PerformanceWeights| ==> PerformanceWeights[i].0 != name
    ensures PerformanceScore(performanceMetrics[agentId := performanceMetrics[agentId][name := v]], agentId)
            == PerformanceScore(performanceMetrics, agentId)
  {
    var m := performanceMetrics[agentId];
    var m' := m[name := v];
    assert m.Keys <= m'.Keys;
    assert |m'| > 0 by {
      assert name in m';
    }
    WeightedSumSameReads(m', m, PerformanceWeights);
  }

  /** A completion rate of 1.0 and an unweighted latency of 250 score 0.4 + 0.3 * 0.5 + 0.3 * 0.5 = 0.7. */
  lemma UnweightedMetricExample()
    ensures PerformanceScore(map["a" := map["task_completion_rate" := 1.0, "latency" := 250.0]], "a") == 0.7
  {
    var m := map["task_completion_rate" := 1.0, "latency" := 250.0];
    assert MetricOr(m, "quality_score") == 0.5 && MetricOr(m, "cooperation_score") == 0.5;
    assert WeightedSum(m, PerformanceWeights) == 1.0 * 0.4 + 0.5 * 0.3 + 0.5 * 0.3;
  }

  /** `0.4 * capability + 0.3 * workload + 0.3 * performance`. */
  function CombinedScore(capability: real, workload: real, performance: real): real
  {
    0.4 * capability + 0.3 * workload + 0.3 * performance
  }

  /**
   * No agent that passes the gate has the workload -1, on which `1.0 / (1.0 + w)`
   * divides by zero; the scorer divides only for agents that pass the gate.
   */
  predicate WellFormed(s: Snapshot, task: Task)
  {
    forall k :: 0 <= k < |s.agentStatus| && Eligible(s, task, k) ==> WorkloadOf(s.workloads, s.agentStatus[k].0) != -1.0
  }

  /** The combined score of one agent for a task. */
  function AgentScore(s: Snapshot, task: Task, agentId: AgentId): (r: real)
    requires WorkloadOf(s.workloads, agentId) != -1.0
    ensures CanHandleTask(s.agentStatus, agentId, task) && WorkloadOf(s.workloads, agentId) >= 0.0
            && (agentId in s.performanceMetrics ==> ReadsInUnitRange(s.performanceMetrics[agentId], PerformanceWeights))
            ==> 0.4 < r <= 1.0
  {
    CombinedScore(
      CapabilityMatch(SetOf(CapabilitiesOf(s.agentStatus, agentId)), SetOf(task.requiredCapabilities)),
      WorkloadScore(WorkloadOf(s.workloads, agentId)),
      PerformanceScore(s.performanceMetrics, agentId))
  }

  // ---------------------------------------------------------------------------
  // Best agent
  // ---------------------------------------------------------------------------

  predicate Eligible(s: Snapshot, task: Task, k: nat)
    requires k < |s.agentStatus|
  {
    CanHandleTask(s.agentStatus, s.agentStatus[k].0, task)
  }

  function ScoreAt(s: Snapshot, task: Task, k: nat): real
    requires WellFormed(s, task) && k < |s.agentStatus| && Eligible(s, task, k)
  {
    AgentScore(s, task, s.agentStatus[k].0)
  }

  /** The score of each agent in `agent_status` order; `None` for an agent the gate rejects. */
  function Candidates(s: Snapshot, task: Task): (c: seq<Option<real>>)
    requires WellFormed(s, task)
  {
    seq(|s.agentStatus|, k requires 0 <= k < |s.agentStatus| =>
      if Eligible(s, task, k) then Some(ScoreAt(s, task, k)) else None)
  }

  lemma CandidateAt(s: Snapshot, task: Task, k: nat)
    requires WellFormed(s, task) && k < |s.agentStatus|
    ensures Candidates(s, task)[k]
            == if CanHandleTask(s.agentStatus, s.agentStatus[k].0, task)
               then Some(AgentScore(s, task, s.agentStatus[k].0)) else None
  {
  }

  /**
   * The loop of `_find_best_agent` after the first `n` candidates: the
   * position it holds, replaced only by a STRICTLY higher score.
   */
  function FirstBest(c: seq<Option<real>>, n: nat): (r: Option<nat>)
    requires n <= |c|
    ensures r.Some? ==> r.value < n && c[r.value].Some?
  {
    if n == 0 then None
    else
      var best := FirstBest(c, n - 1);
      if c[n - 1].None? then best
      else if best.None? || c[n - 1].value > c[best.value].value then Some(n - 1)
      else best
  }

  /** One step of the scan, in terms of the score it holds. */
  lemma FirstBestStep(c: seq<Option<real>>, i: nat, held: Option<nat>, heldScore: real)
    requires i < |c| && held == FirstBest(c, i)
    requires held.Some? ==> heldScore == c[held.value].value
    ensures FirstBest(c, i + 1)
            == if c[i].None? then held
               else if held.None? || c[i].value > heldScore then Some(i)
               else held
  {
  }

  /**
   * Position `k` among the first `n` candidates is present, scores at least
   * as high as every present candidate, and strictly higher than every
   * present candidate before it.
   */
  predicate IsFirstBest(c: seq<Option<real>>, n: nat, k: nat)
    requires n <= |c|
  {
    && k < n
    && c[k].Some?
    && (forall j :: 0 <= j < n && c[j].Some? ==> c[j].value <= c[k].value)
    && (forall j :: 0 <= j < k && c[j].Some? ==> c[j].value < c[k].value)
  }

  /** The argmax finds nothing iff no candidate is present, and otherwise the first best-scoring one. */
  lemma {:induction false} FirstBestSpec(c: seq<Option<real>>, n: nat)
    requires n <= |c|
    ensures FirstBest(c, n).None? <==> forall k :: 0 <= k < n ==> c[k].None?
    ensures FirstBest(c, n).Some? ==> IsFirstBest(c, n, FirstBest(c, n).value)
  {
    if n > 0 {
      FirstBestSpec(c, n - 1);
      var prev := FirstBest(c, n - 1);
      if c[n - 1].Some? && prev.Some? {
        var k := prev.value;
        if c[n - 1].value > c[k].value {
          assert IsFirstBest(c, n, n - 1);
        } else {
          assert IsFirstBest(c, n, k);
        }
      }
    }
  }

  /** At most one position satisfies `IsFirstBest`: the selection is deterministic. */
  lemma FirstBestIsUnique(c: seq<Option<real>>, n: nat, k1: nat, k2: nat)
    requires n <= |c| && IsFirstBest(c, n, k1) && IsFirstBest(c, n, k2)
    ensures k1 == k2
  {
  }

  /** One pass of `_find_best_agent`'s loop over position `i`, in terms of the score it holds. */
  lemma ScanStep(s: Snapshot, task: Task, i: nat, held: Option<nat>, heldScore: real)
    requires WellFormed(s, task) && i < |s.agentStatus|
    requires held == FirstBest(Candidates(s, task), i)
    requires held.Some? ==> heldScore == Candidates(s, task)[held.value].value
    ensures !CanHandleTask(s.agentStatus, s.agentStatus[i].0, task) ==> FirstBest(Candidates(s, task), i + 1) == held
    ensures CanHandleTask(s.agentStatus, s.agentStatus[i].0, task) ==>
              WorkloadOf(s.workloads, s.agentStatus[i].0) != -1.0
              && var score := AgentScore(s, task, s.agentStatus[i].0);
                 Candidates(s, task)[i] == Some(score)
                 && FirstBest(Candidates(s, task), i + 1) == if held.None? || score > heldScore then Some(i) else held
  {
    assert Eligible(s, task, i) <==> CanHandleTask(s.agentStatus, s.agentStatus[i].0, task);
    CandidateAt(s, task, i);
    FirstBestStep(Candidates(s, task), i, held, heldScore);
  }

  /**
   * The body of `_find_best_agent`'s loop for the agent at position `i`: skip it
   * if it fails the gate, otherwise keep it if it scores strictly higher.
   */
  method ScanAgent(s: Snapshot, task: Task, i: nat, held: Option<nat>, heldScore: real)
    returns (held': Option<nat>, heldScore': real)
    requires WellFormed(s, task) && i < |s.agentStatus|
    requires held == FirstBest(Candidates(s, task), i)
    requires held.Some? ==> heldScore == Candidates(s, task)[held.value].value
    ensures held' == FirstBest(Candidates(s, task), i + 1)
    ensures held'.Some? ==> heldScore' == Candidates(s, task)[held'.value].value
  {
    held', heldScore' := held, heldScore;
    var agentId := s.agentStatus[i].0;
    ScanStep(s, task, i, held, heldScore);
    if CanHandleTask(s.agentStatus, agentId, task) {
      var score := AgentScore(s, task, agentId);
      if held.None? || score > heldScore {
        held', heldScore' := Some(i), score;
      }
    }
  }

  /** `_find_best_agent`. */
  function BestAgent(s: Snapshot, task: Task): (r: Option<AgentId>)
    requires WellFormed(s, task)
    ensures r.Some? ==> exists k :: 0 <= k < |s.agentStatus| && s.agentStatus[k].0 == r.value
  {
    match FirstBest(Candidates(s, task), |s.agentStatus|)
    case None => None
    case Some(k) => Some(s.agentStatus[k].0)
  }

  /**
   * The agent at position `k` is eligible, scores at least as high as every
   * eligible agent, and strictly higher than every eligible agent before it.
   */
  predicate IsBestAt(s: Snapshot, task: Task, k: nat)
    requires WellFormed(s, task)
  {
    && k < |s.agentStatus|
    && Eligible(s, task, k)
    && (forall j :: 0 <= j < |s.agentStatus| && Eligible(s, task, j) ==> ScoreAt(s, task, j) <= ScoreAt(s, task, k))
    && (forall j :: 0 <= j < k && Eligible(s, task, j) ==> ScoreAt(s, task, j) < ScoreAt(s, task, k))
  }

  /**
   * `_find_best_agent` returns None iff no agent passes the gate; otherwise it
   * returns the first eligible agent, in `agent_status` order, whose combined
   * score is at least every eligible agent's.
   */
  lemma BestAgentSpec(s: Snapshot, task: Task)
    requires WellFormed(s, task)
    ensures BestAgent(s, task).None? <==> forall k :: 0 <= k < |s.agentStatus| ==> !Eligible(s, task, k)
    ensures BestAgent(s, task).Some? ==>
              exists k: nat :: IsBestAt(s, task, k) && BestAgent(s, task).value == s.agentStatus[k].0
  {
    var c := Candidates(s, task);
    var n := |s.agentStatus|;
    FirstBestSpec(c, n);
    match FirstBest(c, n)
    case None =>
      forall k | 0 <= k < n
        ensures !Eligible(s, task, k)
      {
        assert c[k].None?;
      }
    case Some(k) =>
      assert IsFirstBest(c, n, k);
      assert c[k] == Some(ScoreAt(s, task, k));
      forall j | 0 <= j < n && Eligible(s, task, j)
        ensures ScoreAt(s, task, j) <= ScoreAt(s, task, k)
        ensures j < k ==> ScoreAt(s, task, j) < ScoreAt(s, task, k)
      {
        assert c[j] == Some(ScoreAt(s, task, j));
      }
      assert IsBestAt(s, task, k);
  }

  /** `BestAgentSpec` with the gate written as `_can_handle_task`. */
  lemma BestAgentGate(s: Snapshot, task: Task)
    requires WellFormed(s, task)
    ensures BestAgent(s, task).None? <==>
              forall k :: 0 <= k < |s.agentStatus| ==> !CanHandleTask(s.agentStatus, s.agentStatus[k].0, task)
    ensures BestAgent(s, task).Some? ==>
              exists k: nat :: IsBestAt(s, task, k) && BestAgent(s, task).value == s.agentStatus[k].0
  {
    BestAgentSpec(s, task);
    assert forall k :: 0 <= k < |s.agentStatus| ==>
             (Eligible(s, task, k) <==> CanHandleTask(s.agentStatus, s.agentStatus[k].0, task));
  }

  /** At most one agent position is the best: repeated selection on the same snapshot agrees. */
  lemma BestIsUnique(s: Snapshot, task: Task, k1: nat, k2: nat)
    requires WellFormed(s, task) && IsBestAt(s, task, k1) && IsBestAt(s, task, k2)
    ensures k1 == k2
  {
  }

  /** Of two eligible agents, the second is selected exactly when it scores strictly higher. */
  lemma SecondOfTwoWins(s: Snapshot, task: Task)
    requires WellFormed(s, task) && |s.agentStatus| == 2
    requires Eligible(s, task, 0) && Eligible(s, task, 1)
    ensures BestAgent(s, task) == if ScoreAt(s, task, 0) < ScoreAt(s, task, 1)
                                  then Some(s.agentStatus[1].0) else Some(s.agentStatus[0].0)
  {
    var c := Candidates(s, task);
    assert c[0] == Some(ScoreAt(s, task, 0)) && c[1] == Some(ScoreAt(s, task, 1));
    assert FirstBest(c, 1) == Some(0);
  }

  /** An eligible agent with no workload scores 0.7 plus 0.3 times its performance. */
  lemma IdleEligibleScore(s: Snapshot, task: Task, agentId: AgentId)
    requires WellFormed(s, task) && CanHandleTask(s.agentStatus, agentId, task)
    requires WorkloadOf(s.workloads, agentId) == 0.0
    ensures AgentScore(s, task, agentId) == CombinedScore(1.0, 1.0, PerformanceScore(s.performanceMetrics, agentId))
  {
    EligibleMatchesFully(s.agentStatus, agentId, task);
  }

  /** An agent whose three metrics are all `v` has performance score `v`. */
  lemma UniformMetricsScore(agentId: AgentId, v: real)
    ensures PerformanceScore(map[agentId := map["task_completion_rate" := v, "quality_score" := v, "cooperation_score" := v]], agentId) == v
  {
    var m := map["task_completion_rate" := v, "quality_score" := v, "cooperation_score" := v];
    assert MetricOr(m, PerformanceWeights[0].0) == v;
    assert MetricOr(m, PerformanceWeights[1].0) == v;
    assert MetricOr(m, PerformanceWeights[2].0) == v;
    PerformanceScoreOfUniformMetrics(map[agentId := m], agentId, v);
  }

  /**
   * Two available agents with capability x; a1 has no history, a2 has all
   * three metrics at 0.9; equal workloads; the task requires {x}. Then a2 wins.
   */
  lemma HigherPerformanceWins()
    ensures
      var agents := [("a1", AgentStatus(Some(true), ["x"])), ("a2", AgentStatus(Some(true), ["x", "y"]))];
      var metrics := map["a2" := map["task_completion_rate" := 0.9, "quality_score" := 0.9, "cooperation_score" := 0.9]];
      BestAgent(Snapshot(agents, metrics, map["a1" := 0.0, "a2" := 0.0]), Task("t", ["x"])) == Some("a2")
  {
    var agents := [("a1", AgentStatus(Some(true), ["x"])), ("a2", AgentStatus(Some(true), ["x", "y"]))];
    var metrics := map["a2" := map["task_completion_rate" := 0.9, "quality_score" := 0.9, "cooperation_score" := 0.9]];
    var s := Snapshot(agents, metrics, map["a1" := 0.0, "a2" := 0.0]);
    var task := Task("t", ["x"]);
    assert Get(agents, "a1") == Some(agents[0].1);
    assert Get(agents, "a2") == Some(agents[1].1);
    assert SetOf(["x"]) <= SetOf(["x", "y"]);
    assert Eligible(s, task, 0) && Eligible(s, task, 1);
    IdleEligibleScore(s, task, "a1");
    IdleEligibleScore(s, task, "a2");
    UniformMetricsScore("a2", 0.9);
    assert ScoreAt(s, task, 0) == CombinedScore(1.0, 1.0, 0.5);
    assert ScoreAt(s, task, 1) == CombinedScore(1.0, 1.0, 0.9);
    SecondOfTwoWins(s, task);
  }

  /** With no agents, or none available, no agent is selected. */
  lemma NoAvailableAgentNoSelection(s: Snapshot, task: Task)
    requires WellFormed(s, task)
    requires forall k :: 0 <= k < |s.agentStatus| ==> s.agentStatus[k].1.available != Some(true)
    ensures BestAgent(s, task) == None
  {
    forall k | 0 <= k < |s.agentStatus| ensures !Eligible(s, task, k) {
      var id := s.agentStatus[k].0;
      match Get(s.agentStatus, id)
      case None =>
      case Some(status) =>
        assert (id, status) in s.agentStatus;
    }
    BestAgentSpec(s, task);
  }

  // ---------------------------------------------------------------------------
  // Workloads
  // ---------------------------------------------------------------------------

  /** `_estimate_task_load`: a placeholder that weighs every task 1.0. */
  function EstimateTaskLoad(task: Task): real
  {
    1.0
  }

  /** `assigned_tasks` for one agent: the tasks of the entries naming it, in dictionary order. */
  function AssignedTasks(assignments: Dict<TaskId, Assignment>, agentId: AgentId): seq<Task>
  {
    if |assignments| == 0 then []
    else
      var last := assignments[|assignments| - 1].1;
      AssignedTasks(assignments[..|assignments| - 1], agentId) + (if last.agentId == agentId then [last.task] else [])
  }

  /** `sum(self._estimate_task_load(task) for task in assigned_tasks)`. */
  function TotalLoad(tasks: seq<Task>): (r: real)
    ensures r == |tasks| as real
  {
    if |tasks| == 0 then 0.0 else TotalLoad(tasks[..|tasks| - 1]) + EstimateTaskLoad(tasks[|tasks| - 1])
  }

  /** The agent named by each assignment entry, in dictionary order. */
  function AgentColumn(assignments: Dict<TaskId, Assignment>): seq<AgentId>
  {
    seq(|assignments|, j requires 0 <= j < |assignments| => assignments[j].1.agentId)
  }

  /** The number of assignment entries whose agent is `agentId`. */
  function AssignmentCount(assignments: Dict<TaskId, Assignment>, agentId: AgentId): nat
  {
    multiset(AgentColumn(assignments))[agentId]
  }

  lemma {:induction false} AssignedTasksCount(assignments: Dict<TaskId, Assignment>, agentId: AgentId)
    ensures |AssignedTasks(assignments, agentId)| == AssignmentCount(assignments, agentId)
  {
    var n := |assignments|;
    if n > 0 {
      var prefix := assignments[..n - 1];
      AssignedTasksCount(prefix, agentId);
      var last := assignments[n - 1].1.agentId;
      assert |AssignedTasks(assignments, agentId)|
             == |AssignedTasks(prefix, agentId)| + (if last == agentId then 1 else 0);
      var column, before := AgentColumn(assignments), AgentColumn(prefix);
      assert forall j :: 0 <= j < n - 1 ==> before[j] == prefix[j].1.agentId == column[j];
      assert column == before + [last];
      assert multiset(column) == multiset(before) + multiset{last};
    }
  }

  /** `_calculate_workloads`. */
  function Workloads(agentStatus: Dict<AgentId, AgentStatus>, assignments: Dict<TaskId, Assignment>): (r: map<AgentId, real>)
    ensures forall a :: a in r <==> a in Keys(agentStatus)
    ensures Covers(r, agentStatus) && NonNegative(r)
  {
    var r := map a | a in Keys(agentStatus) :: TotalLoad(AssignedTasks(assignments, a));
    assert forall k :: 0 <= k < |agentStatus| ==> Keys(agentStatus)[k] == agentStatus[k].0;
    r
  }

  /**
   * Each agent's workload is the number of assignments naming it; assignments
   * naming an unknown agent contribute nothing.
   */
  lemma WorkloadsCount(agentStatus: Dict<AgentId, AgentStatus>, assignments: Dict<TaskId, Assignment>)
    ensures forall a :: a in Workloads(agentStatus, assignments) ==>
              Workloads(agentStatus, assignments)[a] == AssignmentCount(assignments, a) as real
  {
    forall a | a in Workloads(agentStatus, assignments)
      ensures Workloads(agentStatus, assignments)[a] == AssignmentCount(assignments, a) as real
    {
      AssignedTasksCount(assignments, a);
    }
  }

  // ---------------------------------------------------------------------------
  // Batch allocation
  // ---------------------------------------------------------------------------

  /** The allocator's two working dictionaries. */
  datatype Allocation = Allocation(lists: map<AgentId, seq<TaskId>>, workloads: map<AgentId, real>)

  function ListOf(lists: map<AgentId, seq<TaskId>>, a: AgentId): seq<TaskId>
  {
    if a in lists then lists[a] else []
  }

  /** Every agent of the status table has a workload entry. */
  predicate Covers(workloads: map<AgentId, real>, agentStatus: Dict<AgentId, AgentStatus>)
  {
    forall k :: 0 <= k < |agentStatus| ==> agentStatus[k].0 in workloads
  }

  /**
   * The agent a task goes to: the best agent, unless there is none or its id
   * is the empty string (`if best_agent:` tests truthiness).
   */
  function Choice(agentStatus: Dict<AgentId, AgentStatus>, metrics: map<AgentId, Metrics>,
                  workloads: map<AgentId, real>, task: Task): (r: Option<AgentId>)
    requires WellFormed(Snapshot(agentStatus, metrics, workloads), task)
    ensures r.Some? ==> exists k :: 0 <= k < |agentStatus| && agentStatus[k].0 == r.value
  {
    match BestAgent(Snapshot(agentStatus, metrics, workloads), task)
    case None => None
    case Some(a) => if a == "" then None else Some(a)
  }

  /** One iteration of the allocator's loop: record the task under its agent and add its load. */
  function AllocateStep(agentStatus: Dict<AgentId, AgentStatus>, metrics: map<AgentId, Metrics>,
                        prev: Allocation, task: Task): (r: Allocation)
    requires NonNegative(prev.workloads) && Covers(prev.workloads, agentStatus)
    ensures r.workloads.Keys == prev.workloads.Keys && NonNegative(r.workloads)
  {
    match Choice(agentStatus, metrics, prev.workloads, task)
    case None => prev
    case Some(a) =>
      Allocation(
        prev.lists[a := ListOf(prev.lists, a) + [task.id]],
        prev.workloads[a := prev.workloads[a] + EstimateTaskLoad(task)])
  }

  /** `optimize_task_allocation` after the given tasks, from the initial workloads. */
  function Allocate(agentStatus: Dict<AgentId, AgentStatus>, metrics: map<AgentId, Metrics>,
                    workloads0: map<AgentId, real>, tasks: seq<Task>): (r: Allocation)
    requires NonNegative(workloads0) && Covers(workloads0, agentStatus)
    ensures r.workloads.Keys == workloads0.Keys && NonNegative(r.workloads)
    decreases |tasks|
  {
    if |tasks| == 0 then Allocation(map[], workloads0)
    else
      var prev := Allocate(agentStatus, metrics, workloads0, tasks[..|tasks| - 1]);
      AllocateStep(agentStatus, metrics, prev, tasks[|tasks| - 1])
  }

  lemma AllocateExtend(agentStatus: Dict<AgentId, AgentStatus>, metrics: map<AgentId, Metrics>,
                       workloads0: map<AgentId, real>, tasks: seq<Task>, i: nat)
    requires NonNegative(workloads0) && Covers(workloads0, agentStatus) && i < |tasks|
    ensures Allocate(agentStatus, metrics, workloads0, tasks[..i + 1])
            == AllocateStep(agentStatus, metrics, Allocate(agentStatus, metrics, workloads0, tasks[..i]), tasks[i])
  {
    assert tasks[..i + 1][..i] == tasks[..i];
  }

  /** One allocator step spelled out for a given outcome of the best-agent search. */
  lemma AllocateStepOf(agentStatus: Dict<AgentId, AgentStatus>, metrics: map<AgentId, Metrics>,
                       prev: Allocation, task: Task, best: Option<AgentId>)
    requires NonNegative(prev.workloads) && Covers(prev.workloads, agentStatus)
    requires best == BestAgent(Snapshot(agentStatus, metrics, prev.workloads), task)
    ensures best.Some? && best.value != "" ==> best.value in prev.workloads
    ensures AllocateStep(agentStatus, metrics, prev, task)
            == if best.Some? && best.value != "" then
                 Allocation(prev.lists[best.value := ListOf(prev.lists, best.value) + [task.id]],
                            prev.workloads[best.value := prev.workloads[best.value] + EstimateTaskLoad(task)])
               else prev
  {
  }

  /** The agent each task went to, with the workloads as the earlier tasks of the batch left them. */
  function Choices(agentStatus: Dict<AgentId, AgentStatus>, metrics: map<AgentId, Metrics>,
                   workloads0: map<AgentId, real>, tasks: seq<Task>): (cs: seq<Option<AgentId>>)
    requires NonNegative(workloads0) && Covers(workloads0, agentStatus)
    ensures |cs| == |tasks|
    decreases |tasks|
  {
    if |tasks| == 0 then []
    else
      var prefix := tasks[..|tasks| - 1];
      Choices(agentStatus, metrics, workloads0, prefix)
        + [Choice(agentStatus, metrics, Allocate(agentStatus, metrics, workloads0, prefix).workloads, tasks[|tasks| - 1])]
  }

  /** The ids of the tasks that went to agent `a`, in task order. */
  function AssignedIds(tasks: seq<Task>, choices: seq<Option<AgentId>>, a: AgentId): seq<TaskId>
    requires |choices| == |tasks|
  {
    if |tasks| == 0 then []
    else
      var n := |tasks| - 1;
      AssignedIds(tasks[..n], choices[..n], a) + (if choices[n] == Some(a) then [tasks[n].id] else [])
  }

  /** How many tasks went to agent `a`. */
  function ChoiceCount(choices: seq<Option<AgentId>>, a: AgentId): nat
  {
    if |choices| == 0 then 0
    else ChoiceCount(choices[..|choices| - 1], a) + (if choices[|choices| - 1] == Some(a) then 1 else 0)
  }

  /** Agent `a`'s list holds the ids of the tasks chosen for it, in input order. */
  lemma {:induction false} AllocateLists(agentStatus: Dict<AgentId, AgentStatus>, metrics: map<AgentId, Metrics>,
                                         workloads0: map<AgentId, real>, tasks: seq<Task>, a: AgentId)
    requires NonNegative(workloads0) && Covers(workloads0, agentStatus)
    ensures ListOf(Allocate(agentStatus, metrics, workloads0, tasks).lists, a)
            == AssignedIds(tasks, Choices(agentStatus, metrics, workloads0, tasks), a)
    decreases |tasks|
  {
    if |tasks| > 0 {
      var n := |tasks| - 1;
      var prefix := tasks[..n];
      AllocateLists(agentStatus, metrics, workloads0, prefix, a);
      var cs := Choices(agentStatus, metrics, workloads0, tasks);
      assert cs[..n] == Choices(agentStatus, metrics, workloads0, prefix);
    }
  }

  /** Only agents that received at least one task have a list. */
  lemma {:induction false} AllocateKeys(agentStatus: Dict<AgentId, AgentStatus>, metrics: map<AgentId, Metrics>,
                                        workloads0: map<AgentId, real>, tasks: seq<Task>, a: AgentId)
    requires NonNegative(workloads0) && Covers(workloads0, agentStatus)
    ensures a in Allocate(agentStatus, metrics, workloads0, tasks).lists
            <==> Some(a) in Choices(agentStatus, metrics, workloads0, tasks)
    decreases |tasks|
  {
    if |tasks| > 0 {
      var n := |tasks| - 1;
      var prefix := tasks[..n];
      AllocateKeys(agentStatus, metrics, workloads0, prefix, a);
      var cs := Choices(agentStatus, metrics, workloads0, tasks);
      assert cs == Choices(agentStatus, metrics, workloads0, prefix) + [cs[n]];
    }
  }

  /**
   * Each assignment raised the chosen agent's working workload by exactly 1.0:
   * after the batch, an agent's workload is its initial one plus the number of
   * tasks it received.
   */
  lemma {:induction false} AllocateWorkloads(agentStatus: Dict<AgentId, AgentStatus>, metrics: map<AgentId, Metrics>,
                                             workloads0: map<AgentId, real>, tasks: seq<Task>, a: AgentId)
    requires NonNegative(workloads0) && Covers(workloads0, agentStatus) && a in workloads0
    ensures Allocate(agentStatus, metrics, workloads0, tasks).workloads[a]
            == workloads0[a] + ChoiceCount(Choices(agentStatus, metrics, workloads0, tasks), a) as real
    decreases |tasks|
  {
    if |tasks| > 0 {
      var n := |tasks| - 1;
      var prefix := tasks[..n];
      AllocateWorkloads(agentStatus, metrics, workloads0, prefix, a);
      var cs := Choices(agentStatus, metrics, workloads0, tasks);
      assert cs[..n] == Choices(agentStatus, metrics, workloads0, prefix);
    }
  }

  /** Every entry of agent `a`'s list is the id of a task chosen for `a`. */
  lemma {:induction false} AssignedIdsSound(tasks: seq<Task>, choices: seq<Option<AgentId>>, a: AgentId, p: nat)
    requires |choices| == |tasks| && p < |AssignedIds(tasks, choices, a)|
    ensures exists j :: 0 <= j < |tasks| && AssignedIds(tasks, choices, a)[p] == tasks[j].id && choices[j] == Some(a)
  {
    var n := |tasks| - 1;
    var before := AssignedIds(tasks[..n], choices[..n], a);
    if p < |before| {
      AssignedIdsSound(tasks[..n], choices[..n], a, p);
      var j :| 0 <= j < n && before[p] == tasks[..n][j].id && choices[..n][j] == Some(a);
      assert tasks[j] == tasks[..n][j];
    } else {
      assert AssignedIds(tasks, choices, a)[p] == tasks[n].id && choices[n] == Some(a);
    }
  }

  /** Every task chosen for `a` has its id in `a`'s list. */
  lemma {:induction false} AssignedIdsComplete(tasks: seq<Task>, choices: seq<Option<AgentId>>, a: AgentId, j: nat)
    requires |choices| == |tasks| && j < |tasks| && choices[j] == Some(a)
    ensures tasks[j].id in AssignedIds(tasks, choices, a)
  {
    var n := |tasks| - 1;
    if j < n {
      AssignedIdsComplete(tasks[..n], choices[..n], a, j);
    }
  }

  /** Within one agent's list, ids appear in the order of the input tasks. */
  lemma {:induction false} AssignedIdsOrdered(tasks: seq<Task>, choices: seq<Option<AgentId>>, a: AgentId, p: nat, q: nat)
    requires |choices| == |tasks| && p < q < |AssignedIds(tasks, choices, a)|
    ensures exists j1, j2 :: 0 <= j1 < j2 < |tasks|
              && AssignedIds(tasks, choices, a)[p] == tasks[j1].id && choices[j1] == Some(a)
              && AssignedIds(tasks, choices, a)[q] == tasks[j2].id && choices[j2] == Some(a)
  {
    var n := |tasks| - 1;
    var before := AssignedIds(tasks[..n], choices[..n], a);
    if q < |before| {
      AssignedIdsOrdered(tasks[..n], choices[..n], a, p, q);
      var j1, j2 :| 0 <= j1 < j2 < n
        && before[p] == tasks[..n][j1].id && choices[..n][j1] == Some(a)
        && before[q] == tasks[..n][j2].id && choices[..n][j2] == Some(a);
      assert tasks[j1] == tasks[..n][j1] && tasks[j2] == tasks[..n][j2];
    } else {
      AssignedIdsSound(tasks[..n], choices[..n], a, p);
      var j1 :| 0 <= j1 < n && before[p] == tasks[..n][j1].id && choices[..n][j1] == Some(a);
      assert tasks[j1] == tasks[..n][j1];
      assert AssignedIds(tasks, choices, a)[q] == tasks[n].id && choices[n] == Some(a);
    }
  }

  predicate DistinctIds(tasks: seq<Task>)
  {
    forall i, j :: 0 <= i < j < |tasks| ==> tasks[i].id != tasks[j].id
  }

  /** With distinct task ids, a task's id is in agent `a`'s list only if the task went to `a`: at most one list. */
  lemma AtMostOneList(tasks: seq<Task>, choices: seq<Option<AgentId>>, a: AgentId, j: nat)
    requires |choices| == |tasks| && DistinctIds(tasks) && j < |tasks|
    requires tasks[j].id in AssignedIds(tasks, choices, a)
    ensures choices[j] == Some(a)
  {
    var list := AssignedIds(tasks, choices, a);
    var p :| 0 <= p < |list| && list[p] == tasks[j].id;
    AssignedIdsSound(tasks, choices, a, p);
  }

  /**
   * With distinct task ids, a task's id is in agent `a`'s final list exactly
   * when the task went to `a`; a task that went to no agent is in no list.
   */
  lemma AllocatedListMembership(agentStatus: Dict<AgentId, AgentStatus>, metrics: map<AgentId, Metrics>,
                                workloads0: map<AgentId, real>, tasks: seq<Task>, j: nat, a: AgentId)
    requires NonNegative(workloads0) && Covers(workloads0, agentStatus)
    requires DistinctIds(tasks) && j < |tasks|
    ensures tasks[j].id in ListOf(Allocate(agentStatus, metrics, workloads0, tasks).lists, a)
            <==> Choices(agentStatus, metrics, workloads0, tasks)[j] == Some(a)
  {
    var cs := Choices(agentStatus, metrics, workloads0, tasks);
    AllocateLists(agentStatus, metrics, workloads0, tasks, a);
    if cs[j] == Some(a) {
      AssignedIdsComplete(tasks, cs, a, j);
    } else if tasks[j].id in AssignedIds(tasks, cs, a) {
      AtMostOneList(tasks, cs, a, j);
    }
  }

  /** With distinct task ids, no id occurs twice in one agent's list. */
  lemma AssignedIdsDistinct(tasks: seq<Task>, choices: seq<Option<AgentId>>, a: AgentId)
    requires |choices| == |tasks| && DistinctIds(tasks)
    ensures Distinct(AssignedIds(tasks, choices, a))
  {
    var list := AssignedIds(tasks, choices, a);
    forall p, q | 0 <= p < q < |list| ensures list[p] != list[q] {
      AssignedIdsOrdered(tasks, choices, a, p, q);
    }
  }

  /**
   * When no agent id is the empty string, a task is left out of the
   * allocation exactly when no agent is eligible for it, whatever the workloads.
   */
  lemma ChoiceNoneIff(agentStatus: Dict<AgentId, AgentStatus>, metrics: map<AgentId, Metrics>,
                      workloads: map<AgentId, real>, task: Task)
    requires WellFormed(Snapshot(agentStatus, metrics, workloads), task)
    requires forall k :: 0 <= k < |agentStatus| ==> agentStatus[k].0 != ""
    ensures Choice(agentStatus, metrics, workloads, task).None? <==>
            (forall k :: 0 <= k < |agentStatus| ==> !CanHandleTask(agentStatus, agentStatus[k].0, task))
  {
    var s := Snapshot(agentStatus, metrics, workloads);
    BestAgentSpec(s, task);
    assert forall k :: 0 <= k < |agentStatus| ==> (Eligible(s, task, k) <==> CanHandleTask(agentStatus, agentStatus[k].0, task));
  }

  /** A task no agent is eligible for is left out, whatever the agent ids are. */
  lemma IneligibleTaskOmitted(agentStatus: Dict<AgentId, AgentStatus>, metrics: map<AgentId, Metrics>,
                              workloads: map<AgentId, real>, task: Task)
    requires WellFormed(Snapshot(agentStatus, metrics, workloads), task)
    requires forall k :: 0 <= k < |agentStatus| ==> !CanHandleTask(agentStatus, agentStatus[k].0, task)
    ensures Choice(agentStatus, metrics, workloads, task) == None
  {
    BestAgentGate(Snapshot(agentStatus, metrics, workloads), task);
  }

  /** A chosen agent is the best agent under the workloads current at that point. */
  lemma ChoiceIsBest(agentStatus: Dict<AgentId, AgentStatus>, metrics: map<AgentId, Metrics>,
                     workloads: map<AgentId, real>, task: Task)
    requires WellFormed(Snapshot(agentStatus, metrics, workloads), task)
    requires Choice(agentStatus, metrics, workloads, task).Some?
    ensures Choice(agentStatus, metrics, workloads, task) == BestAgent(Snapshot(agentStatus, metrics, workloads), task)
    ensures exists k: nat :: IsBestAt(Snapshot(agentStatus, metrics, workloads), task, k)
                             && agentStatus[k].0 == Choice(agentStatus, metrics, workloads, task).value
  {
    BestAgentSpec(Snapshot(agentStatus, metrics, workloads), task);
  }

  // ---------------------------------------------------------------------------
  // The coordinator object
  // ---------------------------------------------------------------------------

  class TeamCoordinator {
    const teamId: string
    /** The FIFO message queue, oldest message first. */
    var messageQueue: seq<Message>
    var agentStatus: Dict<AgentId, AgentStatus>
    var taskAssignments: Dict<TaskId, Assignment>
    var performanceMetrics: map<AgentId, Metrics>

    /** The two ordered tables are Python dictionaries: each key occurs once. */
    ghost predicate Valid()
      reads this
    {
      DistinctKeys(agentStatus) && DistinctKeys(taskAssignments)
    }

    constructor (teamId: string)
      ensures this.teamId == teamId
      ensures messageQueue == [] && agentStatus == [] && taskAssignments == [] && performanceMetrics == map[]
      ensures Valid()
    {
      this.teamId := teamId;
      messageQueue := [];
      agentStatus := [];
      taskAssignments := [];
      performanceMetrics := map[];
    }

    /**
     * `broadcast_message`: one message to "all" at the tail of the queue. The
     * generated id and the current time are parameters.
     */
    method BroadcastMessage(sender: AgentId, kind: MessageType, content: Content, id: string, timestamp: nat)
      requires Valid()
      modifies this
      ensures Valid()
      ensures messageQueue == old(messageQueue)
                + [Message(id, kind, sender, BroadcastReceiver, content, timestamp, DefaultPriority, DefaultRequiresResponse)]
      ensures agentStatus == old(agentStatus) && taskAssignments == old(taskAssignments)
      ensures performanceMetrics == old(performanceMetrics)
    {
      var message := Message(id, kind, sender, BroadcastReceiver, content, timestamp, DefaultPriority, DefaultRequiresResponse);
      messageQueue := messageQueue + [message];
    }

    /** `_find_best_agent`: the loop over `agent_status` in order, keeping a strictly better score. */
    method FindBestAgent(task: Task, workloads: map<AgentId, real>) returns (best: Option<AgentId>)
      requires WellFormed(Snapshot(agentStatus, performanceMetrics, workloads), task)
      ensures best == BestAgent(Snapshot(agentStatus, performanceMetrics, workloads), task)
      ensures best.None? <==> forall k :: 0 <= k < |agentStatus| ==> !CanHandleTask(agentStatus, agentStatus[k].0, task)
      ensures best.Some? ==> exists k: nat :: IsBestAt(Snapshot(agentStatus, performanceMetrics, workloads), task, k)
                                              && best.value == agentStatus[k].0
    {
      var s := Snapshot(agentStatus, performanceMetrics, workloads);
      ghost var c := Candidates(s, task);
      var bestIndex: Option<nat> := None;
      var bestScore: real := 0.0;
      for i := 0 to |agentStatus|
        invariant bestIndex == FirstBest(c, i)
        invariant bestIndex.Some? ==> bestScore == c[bestIndex.value].value
      {
        bestIndex, bestScore := ScanAgent(s, task, i, bestIndex, bestScore);
      }
      best := if bestIndex.None? then None else Some(agentStatus[bestIndex.value].0);
      BestAgentGate(s, task);
    }

    /** `_calculate_workloads`: per agent, the load of the assignments naming it. */
    method CalculateWorkloads() returns (workloads: map<AgentId, real>)
      ensures workloads == Workloads(agentStatus, taskAssignments)
      ensures forall a :: a in workloads <==> a in Keys(agentStatus)
      ensures forall a :: a in workloads ==> workloads[a] == AssignmentCount(taskAssignments, a) as real
    {
      workloads := map[];
      for i := 0 to |agentStatus|
        invariant forall a :: a in workloads <==> a in Keys(agentStatus)[..i]
        invariant forall a :: a in workloads ==> workloads[a] == TotalLoad(AssignedTasks(taskAssignments, a))
      {
        var agentId := agentStatus[i].0;
        var assignedTasks: seq<Task> := [];
        for j := 0 to |taskAssignments|
          invariant assignedTasks == AssignedTasks(taskAssignments[..j], agentId)
        {
          var assignment := taskAssignments[j].1;
          if assignment.agentId == agentId {
            assignedTasks := assignedTasks + [assignment.task];
          }
          assert taskAssignments[..j + 1][..j] == taskAssignments[..j];
        }
        assert taskAssignments[..|taskAssignments|] == taskAssignments;
        workloads := workloads[agentId := TotalLoad(assignedTasks)];
        assert Keys(agentStatus)[..i + 1] == Keys(agentStatus)[..i] + [agentId];
      }
      assert Keys(agentStatus)[..|agentStatus|] == Keys(agentStatus);
      WorkloadsCount(agentStatus, taskAssignments);
    }

    /**
     * `optimize_task_allocation`: tasks in order, each to its best agent, whose
     * working workload then grows by the task's load.
     */
    method OptimizeTaskAllocation(tasks: seq<Task>) returns (allocations: map<AgentId, seq<TaskId>>)
      ensures allocations == Allocate(agentStatus, performanceMetrics, Workloads(agentStatus, taskAssignments), tasks).lists
    {
      allocations := map[];
      var agentWorkloads := CalculateWorkloads();
      ghost var workloads0 := agentWorkloads;
      for i := 0 to |tasks|
        invariant NonNegative(agentWorkloads) && Covers(agentWorkloads, agentStatus)
        invariant Allocation(allocations, agentWorkloads) == Allocate(agentStatus, performanceMetrics, workloads0, tasks[..i])
      {
        AllocateExtend(agentStatus, performanceMetrics, workloads0, tasks, i);
        allocations, agentWorkloads := AllocateTask(tasks[i], allocations, agentWorkloads);
      }
      assert tasks[..|tasks|] == tasks;
    }

    /** One pass of the allocator's loop body. */
    method AllocateTask(task: Task, allocations: map<AgentId, seq<TaskId>>, agentWorkloads: map<AgentId, real>)
      returns (allocations': map<AgentId, seq<TaskId>>, agentWorkloads': map<AgentId, real>)
      requires NonNegative(agentWorkloads) && Covers(agentWorkloads, agentStatus)
      ensures NonNegative(agentWorkloads') && Covers(agentWorkloads', agentStatus)
      ensures Allocation(allocations', agentWorkloads')
              == AllocateStep(agentStatus, performanceMetrics, Allocation(allocations, agentWorkloads), task)
    {
      var best := FindBestAgent(task, agentWorkloads);
      AllocateStepOf(agentStatus, performanceMetrics, Allocation(allocations, agentWorkloads), task, best);
      allocations', agentWorkloads' := allocations, agentWorkloads;
      if best.Some? && best.value != "" {
        var a := best.value;
        var list := if a in allocations then allocations[a] else [];
        allocations' := allocations[a := list + [task.id]];
        agentWorkloads' := agentWorkloads[a := agentWorkloads[a] + EstimateTaskLoad(task)];
      }
    }
  }
}
