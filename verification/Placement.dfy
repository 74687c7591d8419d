/** The two node selectors and the gang selector
    (controller/scheduler/placement.go:21-93, controller/scheduler/scheduler.go:228-299). */
module Placement {
  import opened Records
  import opened Scoring

  /** Go's conversion of a float to an integer: toward zero. */
  function Truncate(x: real): int {
    if x >= 0.0 then x.Floor else -((-x).Floor)
  }

  /** The hard constraints (controller/scheduler/scheduler.go:263-286). */
  predicate SatisfiesConstraints(task: Task, node: Node) {
    && Truncate(AvailableCores(node)) >= task.cpuRequired
    && (task.memoryRequired > 0 ==> Truncate(AvailableMemory(node)) >= task.memoryRequired)
    && (task.gpuRequired > 0 ==> node.row.gpuCount >= task.gpuRequired)
  }

  /** Online and able to take the task. */
  predicate Eligible(task: Task, node: Node) {
    node.row.status == Online && SatisfiesConstraints(task, node)
  }

  /** Position i holds the node a selector must answer: for a pinned task the first eligible node
      with the target ID, otherwise the first of the eligible nodes with maximal score. */
  ghost predicate IsChoice(task: Task, nodes: seq<Node>, i: int) {
    && 0 <= i < |nodes|
    && Eligible(task, nodes[i])
    && if task.targetNode != "" then
         && nodes[i].row.id == task.targetNode
         && forall j | 0 <= j < i :: Eligible(task, nodes[j]) ==> nodes[j].row.id != task.targetNode
       else
         && (forall j | 0 <= j < |nodes| :: Eligible(task, nodes[j]) ==>
               ScoreNode(task, nodes[j]) <= ScoreNode(task, nodes[i]))
         && (forall j | 0 <= j < i :: Eligible(task, nodes[j]) ==>
               ScoreNode(task, nodes[j]) < ScoreNode(task, nodes[i]))
  }

  /** The node every selector must answer, if any. */
  ghost function BestNode(task: Task, nodes: seq<Node>): Option<Node> {
    if exists i :: IsChoice(task, nodes, i) then
      var i :| IsChoice(task, nodes, i);
      Some(nodes[i])
    else
      None
  }

  lemma ChoiceIsBest(task: Task, nodes: seq<Node>, i: int)
    requires IsChoice(task, nodes, i)
    ensures BestNode(task, nodes) == Some(nodes[i])
  {
    var j :| IsChoice(task, nodes, j) && BestNode(task, nodes) == Some(nodes[j]);
    if i < j {
      ChoiceUnique(task, nodes, i, j);
    } else if j < i {
      ChoiceUnique(task, nodes, j, i);
    }
  }

  lemma ChoiceUnique(task: Task, nodes: seq<Node>, i: int, j: int)
    requires IsChoice(task, nodes, i) && IsChoice(task, nodes, j)
    ensures i >= j
  {
    assert Eligible(task, nodes[i]) && Eligible(task, nodes[j]);
  }

  /** Eligible and, for a pinned task, the target. */
  predicate Suitable(task: Task, node: Node) {
    Eligible(task, node) && (task.targetNode != "" ==> node.row.id == task.targetNode)
  }

  /** A node is chosen exactly when some online node fits (and, for a pinned task, is the target). */
  lemma {:induction false} BestNodeExists(task: Task, nodes: seq<Node>)
    ensures BestNode(task, nodes).Some? <==> exists i | 0 <= i < |nodes| :: Suitable(task, nodes[i])
  {
    if i :| 0 <= i < |nodes| && Suitable(task, nodes[i]) {
      var k := SomeChoice(task, nodes, i);
      ChoiceIsBest(task, nodes, k);
    }
    if k :| IsChoice(task, nodes, k) {
      assert Suitable(task, nodes[k]);
    }
  }

  lemma {:induction false} SomeChoice(task: Task, nodes: seq<Node>, i: nat) returns (k: nat)
    requires i < |nodes| && Suitable(task, nodes[i])
    ensures IsChoice(task, nodes, k)
  {
    var n := |nodes| - 1;
    var front := nodes[..n];
    if j :| 0 <= j < n && Suitable(task, front[j]) {
      k := SomeChoice(task, front, j);
      assert IsChoice(task, front, k);
      if task.targetNode == "" && Eligible(task, nodes[n]) && ScoreNode(task, nodes[k]) < ScoreNode(task, nodes[n]) {
        k := n;
      }
    } else {
      assert forall j | 0 <= j < n :: nodes[j] == front[j] && !Suitable(task, nodes[j]);
      k := n;
    }
  }

  /** The chosen node is one of the listed nodes, and it is eligible. */
  lemma BestNodeEligible(task: Task, nodes: seq<Node>)
    requires BestNode(task, nodes).Some?
    ensures BestNode(task, nodes).value in nodes && Eligible(task, BestNode(task, nodes).value)
  {
  }

  /** findBestNode: one pass that skips, returns early for a pinned task, and keeps the best. */
  method FindBestNode(task: Task, nodes: seq<Node>) returns (best: Option<Node>)
    ensures best == BestNode(task, nodes)
  {
    best := None;
    var bestScore := -1.0;
    ghost var k := -1;
    for i := 0 to |nodes|
      invariant best == None ==> k == -1 && bestScore == -1.0
      invariant best == None ==> forall j | 0 <= j < i :: Eligible(task, nodes[j]) ==>
          task.targetNode != "" && nodes[j].row.id != task.targetNode
      invariant best != None ==> task.targetNode == "" && 0 <= k < i && best == Some(nodes[k])
      invariant best != None ==> bestScore == ScoreNode(task, nodes[k]) && IsChoice(task, nodes[..i], k)
    {
      var node := nodes[i];
      if node.row.status != Online {
        continue;
      }
      if !SatisfiesConstraints(task, node) {
        continue;
      }
      if task.targetNode != "" {
        if node.row.id == task.targetNode {
          ChoiceIsBest(task, nodes, i);
          return Some(node);
        }
        continue;
      }
      var score := ScoreNode(task, node);
      if score > bestScore {
        bestScore := score;
        best := Some(node);
        k := i;
      }
    }
    BestNodeExists(task, nodes);
    if best != None {
      assert nodes[..|nodes|] == nodes;
      ChoiceIsBest(task, nodes, k);
    }
  }

  datatype PlacementResult = PlacementResult(taskId: string, nodeId: string, nodeName: string, score: real)

  datatype PlaceError = NoNodes | NothingFits | TargetUnavailable | ScoringFailed

  /** The eligible nodes in list order. */
  function EligibleNodes(task: Task, nodes: seq<Node>): seq<Node> {
    if nodes == [] then []
    else
      var n := |nodes| - 1;
      EligibleNodes(task, nodes[..n]) + if Eligible(task, nodes[n]) then [nodes[n]] else []
  }

  /** `candidates` are the eligible nodes in list order; `at` says where each one stands. */
  ghost predicate Filtered(task: Task, nodes: seq<Node>, candidates: seq<Node>, at: seq<int>) {
    && |at| == |candidates|
    && (forall k | 0 <= k < |at| ::
      0 <= at[k] < |nodes| && candidates[k] == nodes[at[k]] && Eligible(task, candidates[k]))
    && (forall k, l | 0 <= k < l < |at| :: at[k] < at[l])
    && (forall j | 0 <= j < |nodes| :: Eligible(task, nodes[j]) ==> j in at)
  }

  lemma FilteredStep(task: Task, nodes: seq<Node>, i: nat, candidates: seq<Node>, at: seq<int>)
    requires i < |nodes| && Filtered(task, nodes[..i], candidates, at)
    ensures Eligible(task, nodes[i]) ==> Filtered(task, nodes[..i + 1], candidates + [nodes[i]], at + [i])
    ensures !Eligible(task, nodes[i]) ==> Filtered(task, nodes[..i + 1], candidates, at)
  {
    assert forall j | 0 <= j < i :: nodes[..i + 1][j] == nodes[..i][j];
    forall j | 0 <= j < i + 1 && Eligible(task, nodes[..i + 1][j]) && Eligible(task, nodes[i])
      ensures j in at + [i]
    {
      if j < i {
        assert j in at;
      } else {
        assert (at + [i])[|at|] == i;
      }
    }
  }

  lemma {:induction false} EligiblePositions(task: Task, nodes: seq<Node>) returns (at: seq<int>)
    ensures Filtered(task, nodes, EligibleNodes(task, nodes), at)
  {
    at := [];
    if nodes != [] {
      var n := |nodes| - 1;
      var front := EligiblePositions(task, nodes[..n]);
      FilteredStep(task, nodes, n, EligibleNodes(task, nodes[..n]), front);
      assert nodes[..n + 1] == nodes;
      at := if Eligible(task, nodes[n]) then front + [n] else front;
    }
  }

  lemma FilteredMembers(task: Task, nodes: seq<Node>, candidates: seq<Node>, at: seq<int>)
    requires Filtered(task, nodes, candidates, at)
    ensures forall n :: n in candidates <==> n in nodes && Eligible(task, n)
  {
    forall n | n in nodes && Eligible(task, n)
      ensures n in candidates
    {
      var j :| 0 <= j < |nodes| && nodes[j] == n;
      assert j in at;
      var k :| 0 <= k < |at| && at[k] == j;
      assert candidates[k] == n;
    }
    forall n | n in candidates
      ensures n in nodes && Eligible(task, n)
    {
      var k :| 0 <= k < |candidates| && candidates[k] == n;
      assert nodes[at[k]] == n;
    }
  }

  lemma EligibleMembers(task: Task, nodes: seq<Node>)
    ensures forall n :: n in EligibleNodes(task, nodes) <==> n in nodes && Eligible(task, n)
  {
    var at := EligiblePositions(task, nodes);
    FilteredMembers(task, nodes, EligibleNodes(task, nodes), at);
  }

  /** The choice among the candidates is the choice among all nodes. */
  lemma ChoiceOfCandidates(task: Task, nodes: seq<Node>, candidates: seq<Node>, at: seq<int>, k: int)
    requires Filtered(task, nodes, candidates, at) && IsChoice(task, candidates, k)
    ensures IsChoice(task, nodes, at[k])
  {
    forall j | 0 <= j < |nodes| && Eligible(task, nodes[j])
      ensures exists l | 0 <= l < |at| :: at[l] == j && candidates[l] == nodes[j] && (j < at[k] ==> l < k)
    {
      var l :| 0 <= l < |at| && at[l] == j;
      assert candidates[l] == nodes[j];
      if l > k { assert at[k] < at[l]; }
    }
  }

  /** Filtering first does not change what is chosen. */
  lemma BestCandidateIsBest(task: Task, nodes: seq<Node>)
    ensures BestNode(task, EligibleNodes(task, nodes)) == BestNode(task, nodes)
  {
    var candidates := EligibleNodes(task, nodes);
    if k :| IsChoice(task, candidates, k) {
      var at := EligiblePositions(task, nodes);
      ChoiceOfCandidates(task, nodes, candidates, at, k);
      ChoiceIsBest(task, candidates, k);
      ChoiceIsBest(task, nodes, at[k]);
    } else {
      NoCandidateNoChoice(task, nodes);
    }
  }

  lemma NoCandidateNoChoice(task: Task, nodes: seq<Node>)
    requires BestNode(task, EligibleNodes(task, nodes)) == None
    ensures BestNode(task, nodes) == None
  {
    EligibleMembers(task, nodes);
    BestNodeExists(task, EligibleNodes(task, nodes));
    BestNodeExists(task, nodes);
    forall i | 0 <= i < |nodes| && Eligible(task, nodes[i])
      ensures !Suitable(task, nodes[i])
    {
      var k :| 0 <= k < |EligibleNodes(task, nodes)| && EligibleNodes(task, nodes)[k] == nodes[i];
    }
  }

  /** Phase 1: keep the nodes that satisfy the hard constraints. */
  method FilterNodes(task: Task, nodes: seq<Node>) returns (candidates: seq<Node>)
    ensures candidates == EligibleNodes(task, nodes)
  {
    candidates := [];
    for i := 0 to |nodes|
      invariant candidates == EligibleNodes(task, nodes[..i])
    {
      var node := nodes[i];
      assert nodes[..i + 1][..i] == nodes[..i];
      if node.row.status != Online {
        continue;
      }
      if !SatisfiesConstraints(task, node) {
        continue;
      }
      candidates := candidates + [node];
    }
    assert nodes[..|nodes|] == nodes;
  }

  /** Phase 2: the first candidate that is the target of a pinned task. */
  method PinnedCandidate(task: Task, candidates: seq<Node>) returns (r: Option<Node>)
    requires task.targetNode != "" && forall n | n in candidates :: Eligible(task, n)
    ensures r == BestNode(task, candidates)
  {
    for k := 0 to |candidates|
      invariant forall l | 0 <= l < k :: candidates[l].row.id != task.targetNode
    {
      if candidates[k].row.id == task.targetNode {
        ChoiceIsBest(task, candidates, k);
        return Some(candidates[k]);
      }
    }
    return None;
  }

  /** Phase 3: the first candidate with the highest score. */
  method BestCandidate(task: Task, candidates: seq<Node>) returns (bestNode: Option<Node>, bestScore: real)
    requires task.targetNode == "" && candidates != [] && forall n | n in candidates :: Eligible(task, n)
    ensures bestNode.Some? && bestNode == BestNode(task, candidates)
    ensures bestScore == ScoreNode(task, bestNode.value)
  {
    bestNode, bestScore := None, -1.0;
    ghost var best := -1;
    for k := 0 to |candidates|
      invariant k == 0 ==> bestNode == None && bestScore == -1.0
      invariant k > 0 ==> IsChoice(task, candidates[..k], best) && bestNode == Some(candidates[best])
      invariant k > 0 ==> bestScore == ScoreNode(task, candidates[best])
    {
      var node := candidates[k];
      var score := ScoreNode(task, node);
      if score > bestScore {
        bestScore := score;
        bestNode := Some(node);
        best := k;
      }
    }
    assert candidates[..|candidates|] == candidates;
    ChoiceIsBest(task, candidates, best);
  }

  /** PlaceTask: filter, then pin, then take the first maximum. It agrees with FindBestNode on
      every task and list, says which stage failed, and its last error cannot occur. */
  method PlaceTask(task: Task, nodes: seq<Node>) returns (r: Result<PlacementResult, PlaceError>)
    ensures r.Success? <==> BestNode(task, nodes).Some?
    ensures r.Success? ==>
      var best := BestNode(task, nodes).value;
      r.value == PlacementResult(task.id, best.row.id, best.row.hostname,
                                 if task.targetNode != "" then 1.0 else ScoreNode(task, best))
    ensures r == Failure(NoNodes) <==> nodes == []
    ensures r == Failure(NothingFits) <==> nodes != [] && forall n | n in nodes :: !Eligible(task, n)
    ensures r != Failure(ScoringFailed)
  {
    BestCandidateIsBest(task, nodes);
    EligibleMembers(task, nodes);
    if |nodes| == 0 {
      return Failure(NoNodes);
    }
    var candidates := FilterNodes(task, nodes);
    if |candidates| == 0 {
      return Failure(NothingFits);
    }
    assert candidates[0] in candidates;
    if task.targetNode != "" {
      var pinned := PinnedCandidate(task, candidates);
      if pinned.Some? {
        return Success(PlacementResult(task.id, pinned.value.row.id, pinned.value.row.hostname, 1.0));
      }
      return Failure(TargetUnavailable);
    }
    var bestNode, bestScore := BestCandidate(task, candidates);
    if bestNode == None {
      return Failure(ScoringFailed);
    }
    return Success(PlacementResult(task.id, bestNode.value.row.id, bestNode.value.row.hostname, bestScore));
  }

  // ---------- the constraints and the score ----------

  /** For a node that passes the hard constraints neither "remaining < 0" branch is taken. */
  lemma RemainingNeverNegative(task: Task, node: Node)
    requires Sane(task, node) && SatisfiesConstraints(task, node)
    ensures AvailableCores(node) - task.cpuRequired as real >= 0.0
    ensures task.memoryRequired != 0 ==> AvailableMemory(node) - task.memoryRequired as real >= 0.0
  {
    FreePart(node.row.cpuCores, node.live.cpuUsage, node.live.cpuUsage);
    FreePart(node.row.memoryTotal, node.live.memoryUsage, node.live.memoryUsage);
  }

  /** Whatever the readings, what remains is negative only for a task that asks for no core on a node
      with negative headroom, that is, with a CPU usage above 100: truncation toward zero lets it pass. */
  lemma RemainingNegativeExactly(task: Task, node: Node)
    requires SatisfiesConstraints(task, node) && 0 <= task.cpuRequired
    ensures AvailableCores(node) - task.cpuRequired as real < 0.0 <==>
      task.cpuRequired == 0 && AvailableCores(node) < 0.0
    ensures 1 <= node.row.cpuCores ==> (AvailableCores(node) < 0.0 <==> node.live.cpuUsage > 100.0)
    ensures task.memoryRequired > 0 ==> AvailableMemory(node) - task.memoryRequired as real >= 0.0
  {
    EnoughAfterTruncation(AvailableCores(node), task.cpuRequired);
    if task.memoryRequired > 0 {
      EnoughAfterTruncation(AvailableMemory(node), task.memoryRequired);
    }
    if 1 <= node.row.cpuCores {
      NegativeHeadroom(node);
    }
  }

  lemma EnoughAfterTruncation(x: real, n: nat)
    requires Truncate(x) >= n
    ensures x - n as real < 0.0 <==> n == 0 && x < 0.0
  {
  }

  lemma NegativeHeadroom(node: Node)
    requires 1 <= node.row.cpuCores
    ensures AvailableCores(node) < 0.0 <==> node.live.cpuUsage > 100.0
  {
    var c, f := node.row.cpuCores as real, 1.0 - node.live.cpuUsage / 100.0;
    SignOfProduct(c, f);
    assert AvailableCores(node) == c * f;
    assert f < 0.0 <==> node.live.cpuUsage > 100.0;
  }

  lemma SignOfProduct(c: real, f: real)
    requires c > 0.0
    ensures c * f < 0.0 <==> f < 0.0
  {
    if f < 0.0 {
      assert c * -f > 0.0;
    }
  }

  /** On sane readings truncation changes nothing: a node is eligible exactly when it is online, what it
      has free covers the cores asked for and any memory asked for, and it has the GPUs asked for. */
  lemma EligibleExactly(task: Task, node: Node)
    requires Sane(task, node)
    ensures Eligible(task, node) <==>
      && node.row.status == Online
      && task.cpuRequired as real <= node.row.cpuCores as real * (1.0 - node.live.cpuUsage / 100.0)
      && (task.memoryRequired == 0 ||
          task.memoryRequired as real <= node.row.memoryTotal as real * (1.0 - node.live.memoryUsage / 100.0))
      && (task.gpuRequired <= 0 || task.gpuRequired <= node.row.gpuCount)
  {
    FreePart(node.row.cpuCores, node.live.cpuUsage, node.live.cpuUsage);
    FreePart(node.row.memoryTotal, node.live.memoryUsage, node.live.memoryUsage);
    TruncationKeepsOrder(AvailableCores(node), task.cpuRequired);
    TruncationKeepsOrder(AvailableMemory(node), task.memoryRequired);
  }

  lemma TruncationKeepsOrder(x: real, n: nat)
    requires 0.0 <= x
    ensures Truncate(x) >= n <==> n as real <= x
  {
  }

  /** Beyond sane readings truncation lets through a task that asks for nothing as long as less than one core
      is missing. */
  lemma NothingAskedFitsExactly(task: Task, node: Node)
    requires task.cpuRequired == 0 && task.memoryRequired <= 0 && task.gpuRequired <= 0
    ensures SatisfiesConstraints(task, node) <==>
      node.row.cpuCores as real * (1.0 - node.live.cpuUsage / 100.0) > -1.0
  {
    TruncatedToZero(AvailableCores(node));
  }

  lemma TruncatedToZero(x: real)
    ensures Truncate(x) >= 0 <==> x > -1.0
  {
    if x < 0.0 {
      assert (-x).Floor >= 1 <==> -x >= 1.0;
    }
  }

  // ---------- what the score is made of ----------

  /** Two readings of machines of the same size. */
  predicate SameSize(a: Node, b: Node) {
    a.row.cpuCores == b.row.cpuCores && a.row.memoryTotal == b.row.memoryTotal
  }

  /** The same machine as far as the score goes, except for the number of running tasks. */
  predicate SameLoad(a: Node, b: Node) {
    && SameSize(a, b)
    && a.live.cpuUsage == b.live.cpuUsage && a.live.memoryUsage == b.live.memoryUsage
    && a.live.loadAvg1 == b.live.loadAvg1
  }

  /** What r running tasks leave of a score s: a tenth less for each of the first five. */
  function LeftOf(s: real, r: nat): real {
    if r == 0 then s
    else if r == 1 then 0.9 * s
    else if r == 2 then 0.8 * s
    else if r == 3 then 0.7 * s
    else if r == 4 then 0.6 * s
    else 0.5 * s
  }

  lemma DampedIs(total: real, r: nat)
    ensures Damped(total, r) == LeftOf(total, r)
  {
  }

  lemma ScoreIsDamped(task: Task, a: Node)
    requires Sane(task, a)
    ensures ScoreNode(task, a) == LeftOf(WeightedSum(task, a), a.live.runningTasks)
    ensures WeightedSum(task, a) >= 0.05
  {
    ScoreRangeAndMonotone(task, a, a);
    DampedIs(WeightedSum(task, a), a.live.runningTasks);
    CpuScoreFacts(task, a, a);
    MemoryScoreFacts(task, a, a);
    LoadScoreFacts(task, a, a);
  }

  lemma SameLoadSameParts(task: Task, a: Node, b: Node)
    requires SameLoad(a, b)
    ensures CpuScore(task, a) == CpuScore(task, b) && MemoryScore(task, a) == MemoryScore(task, b)
    ensures LoadScore(a) == LoadScore(b)
  {
    assert AvailableCores(a) == AvailableCores(b) && AvailableMemory(a) == AvailableMemory(b);
  }

  lemma SameLoadSameSum(task: Task, a: Node, b: Node)
    requires SameLoad(a, b)
    ensures WeightedSum(task, a) == WeightedSum(task, b)
  {
    SameLoadSameParts(task, a, b);
  }

  /** Each of the first five running tasks costs a tenth of the score the node would have without any, and
      further ones cost nothing. */
  lemma RunningTasksCost(task: Task, a: Node, idle: Node)
    requires Sane(task, a) && Sane(task, idle) && SameLoad(a, idle) && idle.live.runningTasks == 0
    ensures ScoreNode(task, a) == LeftOf(ScoreNode(task, idle), a.live.runningTasks)
    ensures ScoreNode(task, idle) >= 0.05
  {
    ScoreIsDamped(task, a);
    ScoreIsDamped(task, idle);
    SameLoadSameSum(task, a, idle);
  }

  lemma LessIsLeft(s: real, q: nat, r: nat)
    requires s > 0.0 && q < r && q < 5
    ensures LeftOf(s, r) < LeftOf(s, q)
  {
  }

  /** In tenths: the scores are as what is left of ten. */
  lemma LeftInTenths(s: real, q: nat, r: nat)
    ensures (10 - (if r < 5 then r else 5)) as real * LeftOf(s, q) ==
            (10 - (if q < 5 then q else 5)) as real * LeftOf(s, r)
  {
  }

  /** Below five running tasks, one task more is a strictly lower score. */
  lemma FewerTasksScoreHigher(task: Task, a: Node, b: Node)
    requires Sane(task, a) && Sane(task, b) && SameLoad(a, b)
    requires a.live.runningTasks < b.live.runningTasks && a.live.runningTasks < 5
    ensures ScoreNode(task, b) < ScoreNode(task, a)
  {
    ScoreIsDamped(task, a);
    ScoreIsDamped(task, b);
    SameLoadSameSum(task, a, b);
    LessIsLeft(WeightedSum(task, a), a.live.runningTasks, b.live.runningTasks);
  }

  /** So no selector answers the busier of two otherwise equal eligible nodes. */
  lemma NotTheBusier(task: Task, nodes: seq<Node>, i: nat, j: nat)
    requires task.targetNode == "" && i < |nodes| && j < |nodes|
    requires Eligible(task, nodes[i]) && Sane(task, nodes[i]) && Sane(task, nodes[j]) && SameLoad(nodes[i], nodes[j])
    requires nodes[i].live.runningTasks < nodes[j].live.runningTasks && nodes[i].live.runningTasks < 5
    ensures BestNode(task, nodes) != Some(nodes[j])
  {
    FewerTasksScoreHigher(task, nodes[i], nodes[j]);
  }

  lemma ShareLeft(c: real, f: real, r: real)
    requires c > 0.0
    ensures (c * f - r) / c == f - r / c
  {
    assert (f - r / c) * c == c * f - r;
  }

  /** Cores and memory count by what is left of them after the task. */
  lemma CpuShare(task: Task, a: Node)
    requires 1 <= a.row.cpuCores && AvailableCores(a) - task.cpuRequired as real >= 0.0
    ensures CpuScore(task, a) == 1.0 - a.live.cpuUsage / 100.0 - task.cpuRequired as real / a.row.cpuCores as real
  {
    var c, f, r := a.row.cpuCores as real, 1.0 - a.live.cpuUsage / 100.0, task.cpuRequired as real;
    ShareLeft(c, f, r);
    assert AvailableCores(a) == c * f;
    assert CpuScore(task, a) == (c * f - r) / c;
  }

  lemma MemoryShare(task: Task, a: Node)
    requires a.row.memoryTotal > 0
    requires task.memoryRequired != 0 ==> AvailableMemory(a) - task.memoryRequired as real >= 0.0
    ensures MemoryScore(task, a) ==
      1.0 - a.live.memoryUsage / 100.0 - task.memoryRequired as real / a.row.memoryTotal as real
  {
    var c, f, r := a.row.memoryTotal as real, 1.0 - a.live.memoryUsage / 100.0, task.memoryRequired as real;
    ShareLeft(c, f, r);
    assert AvailableMemory(a) == c * f;
    assert task.memoryRequired != 0 ==> MemoryScore(task, a) == (c * f - r) / c;
    assert task.memoryRequired == 0 ==> r / c == 0.0;
  }

  lemma LoadShare(a: Node)
    requires 1 <= a.row.cpuCores && 0.0 <= a.live.loadAvg1 <= a.row.cpuCores as real
    ensures LoadScore(a) == 1.0 - a.live.loadAvg1 / a.row.cpuCores as real
  {
    Share(a.live.loadAvg1, a.row.cpuCores as real);
  }

  /** The score of a node that fits the task, has no running task and is not overloaded. */
  lemma FreeNodeScore(task: Task, a: Node)
    requires Sane(task, a) && SatisfiesConstraints(task, a) && a.row.memoryTotal > 0
    requires a.live.runningTasks == 0 && a.live.loadAvg1 <= a.row.cpuCores as real
    ensures var cpu, memory := a.live.cpuUsage / 100.0, a.live.memoryUsage / 100.0;
      ScoreNode(task, a) ==
        0.35 * (1.0 - cpu - task.cpuRequired as real / a.row.cpuCores as real) +
        0.30 * (1.0 - memory - task.memoryRequired as real / a.row.memoryTotal as real) +
        0.25 * (1.0 - a.live.loadAvg1 / a.row.cpuCores as real) + 0.05
  {
    ScoreRangeAndMonotone(task, a, a);
    RemainingNeverNegative(task, a);
    CpuShare(task, a);
    MemoryShare(task, a);
    LoadShare(a);
    assert RawScore(task, a) == WeightedSum(task, a);
  }

  /** The trade-off between the readings of one machine: a point of CPU usage weighs 0.35, one of memory
      usage 0.30, and load, as a share of the cores, 0.25; an idle machine that nothing is asked of has 0.95. */
  lemma ReadingsTradeOff(task: Task, a: Node, b: Node)
    requires Sane(task, a) && Sane(task, b) && SameSize(a, b) && a.row.memoryTotal > 0
    requires SatisfiesConstraints(task, a) && SatisfiesConstraints(task, b)
    requires a.live.runningTasks == 0 && b.live.runningTasks == 0
    requires a.live.loadAvg1 <= a.row.cpuCores as real && b.live.loadAvg1 <= a.row.cpuCores as real
    ensures ScoreNode(task, a) > ScoreNode(task, b) <==>
      0.35 * (b.live.cpuUsage - a.live.cpuUsage) / 100.0 + 0.30 * (b.live.memoryUsage - a.live.memoryUsage) / 100.0 +
      0.25 * (b.live.loadAvg1 - a.live.loadAvg1) / a.row.cpuCores as real > 0.0
    ensures (a.live.cpuUsage == a.live.memoryUsage == a.live.loadAvg1 == 0.0
             && task.cpuRequired == task.memoryRequired == 0) ==> ScoreNode(task, a) == 0.95
  {
    FreeNodeScore(task, a);
    FreeNodeScore(task, b);
    ScaledDifference(0.25, b.live.loadAvg1, a.live.loadAvg1, a.row.cpuCores as real);
  }

  /** Load beyond the number of cores makes no further difference. */
  lemma OverloadIsFull(task: Task, a: Node, b: Node)
    requires SameSize(a, b) && a.live.(loadAvg1 := b.live.loadAvg1) == b.live && 1 <= a.row.cpuCores
    requires a.live.loadAvg1 >= a.row.cpuCores as real && b.live.loadAvg1 >= a.row.cpuCores as real
    ensures ScoreNode(task, a) == ScoreNode(task, b)
  {
    DivMono(a.row.cpuCores as real, a.live.loadAvg1, a.row.cpuCores as real);
    DivMono(a.row.cpuCores as real, b.live.loadAvg1, a.row.cpuCores as real);
    assert LoadScore(a) == 0.0 == LoadScore(b);
    assert AvailableCores(a) == AvailableCores(b) && AvailableMemory(a) == AvailableMemory(b);
    assert CpuScore(task, a) == CpuScore(task, b) && MemoryScore(task, a) == MemoryScore(task, b);
  }

  /** A free node whose hardware is not known yet stands between an idle and a busy one. */
  lemma UnknownHardwareScore(task: Task, a: Node)
    requires a.row.cpuCores == 0 && a.row.memoryTotal == 0 && a.live.runningTasks == 0
    ensures ScoreNode(task, a) == 0.325
  {
  }

  lemma ScaledDifference(w: real, x: real, y: real, c: real)
    requires c > 0.0
    ensures w * (x - y) / c == w * (1.0 - y / c) - w * (1.0 - x / c)
  {
    var p, q := x / c, y / c;
    assert p * c == x && q * c == y;
    assert (w * (p - q)) * c == w * (x - y);
  }

  // ---------- gang selection ----------

  /** What findGangNodes answers: the first WorldSize eligible nodes, or none. */
  function GangNodes(task: Task, nodes: seq<Node>): seq<Node>
    requires task.worldSize >= 0
  {
    var candidates := EligibleNodes(task, nodes);
    if |candidates| >= task.worldSize then candidates[..task.worldSize] else []
  }

  method FindGangNodes(task: Task, nodes: seq<Node>) returns (gang: seq<Node>)
    requires task.worldSize >= 0
    ensures gang == GangNodes(task, nodes)
  {
    var candidates: seq<Node> := [];
    for i := 0 to |nodes|
      invariant candidates == EligibleNodes(task, nodes[..i])
    {
      assert nodes[..i + 1][..i] == nodes[..i];
      if nodes[i].row.status == Online && SatisfiesConstraints(task, nodes[i]) {
        candidates := candidates + [nodes[i]];
      }
    }
    assert nodes[..|nodes|] == nodes;
    return if |candidates| >= task.worldSize then candidates[..task.worldSize] else [];
  }

  lemma EligibleNodesFacts(task: Task, nodes: seq<Node>)
    requires DistinctIds(nodes)
    ensures forall n :: n in EligibleNodes(task, nodes) <==> n in nodes && Eligible(task, n)
    ensures DistinctIds(EligibleNodes(task, nodes))
  {
    EligibleMembers(task, nodes);
    var at := EligiblePositions(task, nodes);
    var candidates := EligibleNodes(task, nodes);
    forall i, j | 0 <= i < j < |candidates|
      ensures candidates[i].row.id != candidates[j].row.id
    {
      assert at[i] < at[j];
    }
  }

  /** A gang is all or nothing: no node at all, or WorldSize nodes that are pairwise distinct, listed,
      online and able to take the task; and a gang is found exactly when enough nodes are eligible. */
  lemma GangAllOrNothing(task: Task, nodes: seq<Node>)
    requires task.worldSize > 0 && DistinctIds(nodes)
    ensures var gang := GangNodes(task, nodes);
      && (gang == [] || |gang| == task.worldSize)
      && DistinctIds(gang)
      && (forall n | n in gang :: n in nodes && Eligible(task, n))
      && (gang == [] <==> |set n | n in nodes && Eligible(task, n)| < task.worldSize)
  {
    EligibleNodesFacts(task, nodes);
    var candidates := EligibleNodes(task, nodes);
    assert (set n | n in nodes && Eligible(task, n)) == (set n | n in candidates);
    DistinctCount(candidates);
  }

  /** The gang are the first eligible nodes, in list order: `at` says where each one stands, and no eligible
      node before the last of them is left out. */
  lemma GangIsFirst(task: Task, nodes: seq<Node>) returns (at: seq<int>)
    requires task.worldSize > 0 && GangNodes(task, nodes) != []
    ensures var gang := GangNodes(task, nodes);
      && |at| == |gang|
      && (forall k | 0 <= k < |at| :: 0 <= at[k] < |nodes| && gang[k] == nodes[at[k]] && Eligible(task, gang[k]))
      && (forall k, l | 0 <= k < l < |at| :: at[k] < at[l])
      && (forall j | 0 <= j < at[|at| - 1] && Eligible(task, nodes[j]) :: j in at)
  {
    var all := EligiblePositions(task, nodes);
    at := all[..task.worldSize];
    NoneLeftOut(task, nodes, EligibleNodes(task, nodes), all, task.worldSize);
  }

  lemma NoneLeftOut(task: Task, nodes: seq<Node>, candidates: seq<Node>, all: seq<int>, size: nat)
    requires Filtered(task, nodes, candidates, all) && 0 < size <= |all|
    ensures forall j | 0 <= j < all[size - 1] && j < |nodes| && Eligible(task, nodes[j]) :: j in all[..size]
  {
    forall j | 0 <= j < all[size - 1] && j < |nodes| && Eligible(task, nodes[j])
      ensures j in all[..size]
    {
      assert j in all;
      var k :| 0 <= k < |all| && all[k] == j;
      assert k < size && all[..size][k] == j;
    }
  }

  lemma {:induction false} DistinctCount(nodes: seq<Node>)
    requires DistinctIds(nodes)
    ensures |set n | n in nodes| == |nodes|
  {
    if nodes != [] {
      var k := |nodes| - 1;
      DistinctCount(nodes[..k]);
      assert (set n | n in nodes) == (set n | n in nodes[..k]) + {nodes[k]};
    }
  }
}
