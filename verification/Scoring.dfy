/** Node scoring over real numbers (controller/scheduler/scoring.go). */
module Scoring {
  import opened Records

  function Min(x: real, y: real): real {
    if x < y then x else y
  }

  function AvailableCores(node: Node): real {
    node.row.cpuCores as real * (1.0 - node.live.cpuUsage / 100.0)
  }

  function AvailableMemory(node: Node): real {
    node.row.memoryTotal as real * (1.0 - node.live.memoryUsage / 100.0)
  }

  function CpuScore(task: Task, node: Node): real {
    if node.row.cpuCores == 0 then 0.0
    else
      var remaining := AvailableCores(node) - task.cpuRequired as real;
      if remaining < 0.0 then 0.0 else remaining / node.row.cpuCores as real
  }

  function MemoryScore(task: Task, node: Node): real {
    if node.row.memoryTotal == 0 then 0.5
    else if task.memoryRequired == 0 then 1.0 - node.live.memoryUsage / 100.0
    else
      var remaining := AvailableMemory(node) - task.memoryRequired as real;
      if remaining < 0.0 then 0.0 else remaining / node.row.memoryTotal as real
  }

  function LoadScore(node: Node): real {
    if node.row.cpuCores == 0 then 0.5
    else 1.0 - Min(node.live.loadAvg1 / node.row.cpuCores as real, 1.0)
  }

  function AffinityScore(): real {
    0.5
  }

  /** The weights are those of CPU, memory, load and affinity. */
  function WeightedSum(task: Task, node: Node): real {
    0.35 * CpuScore(task, node) + 0.30 * MemoryScore(task, node)
    + 0.25 * LoadScore(node) + 0.10 * AffinityScore()
  }

  /** The penalty for nodes already running many tasks. */
  function Damped(total: real, runningTasks: int): real {
    total * (1.0 - Min(runningTasks as real * 0.1, 0.5))
  }

  /** The score before clamping. */
  function RawScore(task: Task, node: Node): real {
    Damped(WeightedSum(task, node), node.live.runningTasks)
  }

  function Clamp(v: real, min: real, max: real): real {
    if v < min then min else if v > max then max else v
  }

  function ScoreNode(task: Task, node: Node): real {
    Clamp(RawScore(task, node), 0.0, 1.0)
  }

  // ---------- the documented range, monotonicity and dead branches ----------

  /** Readings and requirements that make physical sense. */
  predicate Sane(task: Task, node: Node) {
    && 0.0 <= node.live.cpuUsage <= 100.0
    && 0.0 <= node.live.memoryUsage <= 100.0
    && 0.0 <= node.live.loadAvg1
    && 0 <= node.live.runningTasks
    && 1 <= node.row.cpuCores && 0 <= node.row.memoryTotal
    && 0 <= task.cpuRequired && 0 <= task.memoryRequired
  }

  /** Same machine, at least as busy in every reading the score looks at. */
  predicate Busier(a: Node, b: Node) {
    && a.row == b.row
    && a.live.cpuUsage <= b.live.cpuUsage
    && a.live.memoryUsage <= b.live.memoryUsage
    && a.live.loadAvg1 <= b.live.loadAvg1
    && a.live.runningTasks <= b.live.runningTasks
  }

  lemma MulMono(a: real, b: real, c: real)
    requires a <= b && 0.0 <= c
    ensures a * c <= b * c && c * a <= c * b
  {
  }

  lemma DivMono(a: real, b: real, c: real)
    requires a <= b && 0.0 < c
    ensures a / c <= b / c
  {
  }

  /** Dividing by a positive capacity what is between 0 and that capacity gives a share. */
  lemma Share(a: real, c: real)
    requires 0.0 <= a <= c && 0.0 < c
    ensures 0.0 <= a / c <= 1.0
  {
    DivMono(0.0, a, c);
    DivMono(a, c, c);
  }

  /** What is free of a capacity is a part of it, and shrinks as the usage grows. */
  lemma FreePart(total: int, u: real, v: real)
    requires 0 <= total && 0.0 <= u <= v <= 100.0
    ensures 0.0 <= total as real * (1.0 - v / 100.0) <= total as real * (1.0 - u / 100.0) <= total as real
  {
    DivMono(0.0, u, 100.0);
    DivMono(u, v, 100.0);
    DivMono(v, 100.0, 100.0);
    MulMono(0.0, 1.0 - v / 100.0, total as real);
    MulMono(1.0 - v / 100.0, 1.0 - u / 100.0, total as real);
    MulMono(1.0 - u / 100.0, 1.0, total as real);
  }

  lemma CpuScoreFacts(task: Task, a: Node, b: Node)
    requires Sane(task, a) && Sane(task, b) && Busier(a, b)
    ensures 0.0 <= CpuScore(task, b) <= CpuScore(task, a) <= 1.0
  {
    var cores := a.row.cpuCores as real;
    FreePart(a.row.cpuCores, a.live.cpuUsage, b.live.cpuUsage);
    var ra, rb := AvailableCores(a) - task.cpuRequired as real, AvailableCores(b) - task.cpuRequired as real;
    assert task.cpuRequired as real >= 0.0 && AvailableCores(b) <= AvailableCores(a) <= cores;
    if ra >= 0.0 { Share(ra, cores); }
    if rb >= 0.0 { Share(rb, cores); DivMono(rb, ra, cores); }
  }

  lemma MemoryFree(a: Node, b: Node)
    requires Busier(a, b) && 0 <= a.row.memoryTotal && 0.0 <= a.live.memoryUsage && b.live.memoryUsage <= 100.0
    ensures 0.0 <= AvailableMemory(b) <= AvailableMemory(a) <= a.row.memoryTotal as real
  {
    FreePart(a.row.memoryTotal, a.live.memoryUsage, b.live.memoryUsage);
  }

  lemma MemoryIdle(a: Node, b: Node)
    requires Busier(a, b) && 0.0 <= a.live.memoryUsage && b.live.memoryUsage <= 100.0
    ensures 0.0 <= 1.0 - b.live.memoryUsage / 100.0 <= 1.0 - a.live.memoryUsage / 100.0 <= 1.0
  {
    DivMono(0.0, a.live.memoryUsage, 100.0);
    DivMono(a.live.memoryUsage, b.live.memoryUsage, 100.0);
    DivMono(b.live.memoryUsage, 100.0, 100.0);
  }

  lemma MemoryScoreFacts(task: Task, a: Node, b: Node)
    requires Sane(task, a) && Sane(task, b) && Busier(a, b)
    ensures 0.0 <= MemoryScore(task, b) <= MemoryScore(task, a) <= 1.0
  {
    var total := a.row.memoryTotal as real;
    MemoryFree(a, b);
    MemoryIdle(a, b);
    var ra, rb := AvailableMemory(a) - task.memoryRequired as real, AvailableMemory(b) - task.memoryRequired as real;
    assert task.memoryRequired as real >= 0.0;
    assert rb <= ra <= total;
    if a.row.memoryTotal > 0 {
      if ra >= 0.0 { Share(ra, total); }
      if rb >= 0.0 { Share(rb, total); DivMono(rb, ra, total); }
    }
  }

  lemma LoadScoreFacts(task: Task, a: Node, b: Node)
    requires Sane(task, a) && Sane(task, b) && Busier(a, b)
    ensures 0.0 <= LoadScore(b) <= LoadScore(a) <= 1.0
  {
    DivMono(0.0, a.live.loadAvg1, a.row.cpuCores as real);
    DivMono(a.live.loadAvg1, b.live.loadAvg1, a.row.cpuCores as real);
  }

  lemma WeightedSumFacts(task: Task, a: Node, b: Node)
    requires Sane(task, a) && Sane(task, b) && Busier(a, b)
    ensures 0.0 <= WeightedSum(task, b) <= WeightedSum(task, a) <= 0.95
  {
    CpuScoreFacts(task, a, b);
    MemoryScoreFacts(task, a, b);
    LoadScoreFacts(task, a, b);
    SumFacts(CpuScore(task, a), CpuScore(task, b), MemoryScore(task, a), MemoryScore(task, b), LoadScore(a),
             LoadScore(b));
  }

  lemma SumFacts(ca: real, cb: real, ma: real, mb: real, la: real, lb: real)
    requires 0.0 <= cb <= ca <= 1.0 && 0.0 <= mb <= ma <= 1.0 && 0.0 <= lb <= la <= 1.0
    ensures 0.0 <= 0.35 * cb + 0.30 * mb + 0.25 * lb + 0.10 * 0.5
              <= 0.35 * ca + 0.30 * ma + 0.25 * la + 0.10 * 0.5 <= 0.95
  {
  }

  lemma DampedFacts(wa: real, wb: real, ra: int, rb: int)
    requires 0.0 <= wb <= wa && 0 <= ra <= rb
    ensures 0.0 <= Damped(wb, rb) <= Damped(wa, ra) <= wa
  {
    ProductFacts(wa, wb, 1.0 - Min(ra as real * 0.1, 0.5), 1.0 - Min(rb as real * 0.1, 0.5));
  }

  /** On sane readings the unclamped score is in [0, 0.95], so clamping changes nothing and a
      score of 1.0 is never reached, and it never grows when the node gets busier. */
  lemma ScoreRangeAndMonotone(task: Task, a: Node, b: Node)
    requires Sane(task, a) && Sane(task, b) && Busier(a, b)
    ensures 0.0 <= RawScore(task, b) <= RawScore(task, a) <= 0.95
    ensures ScoreNode(task, a) == RawScore(task, a)
    ensures ScoreNode(task, b) == RawScore(task, b)
  {
    WeightedSumFacts(task, a, b);
    DampedFacts(WeightedSum(task, a), WeightedSum(task, b), a.live.runningTasks, b.live.runningTasks);
  }

  lemma PartOf(w: real, f: real)
    requires 0.0 <= w && 0.0 <= f <= 1.0
    ensures 0.0 <= w * f <= w
  {
    MulMono(f, 1.0, w);
    assert w * f <= w * 1.0;
  }

  lemma ProductFacts(wa: real, wb: real, fa: real, fb: real)
    requires 0.0 <= wb <= wa && 0.0 <= fb <= fa <= 1.0
    ensures 0.0 <= wb * fb <= wa * fa <= wa
  {
    MulMono(fb, fa, wb);
    MulMono(wb, wa, fa);
    PartOf(wa, fa);
    PartOf(wb, fb);
  }
}
