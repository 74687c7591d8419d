/** The controller as a transition system: every handler call, scheduling cycle and heartbeat sweep is
    one atomic step, with a history of what has been handed out and rescheduled. */
module Lifecycle {
  import opened Records
  import opened ChunkIds
  import opened Scoring
  import opened Placement
  import opened SplitPlans
  import opened TaskStore
  import opened Scheduling
  import opened Heartbeats
  import opened Handlers

  /** The store with its history: how often each task and chunk was handed to an agent, how often a
      task was rescheduled automatically, and how often it left a non-terminal status. */
  datatype System = System(
    db: Db,
    handedTasks: multiset<string>,
    handedChunks: multiset<string>,
    rescheduled: multiset<string>,
    moves: multiset<string>)

  datatype Step =
    | Submit(row: Task)
    | Cancel(id: string)
    | Retry(id: string)
    | Poll(nodeId: string)
    | Report(itemId: string, status: Status, exitCode: int)
    | Schedule(snapshot: seq<Node>, w: World)
    | SweepNodes(now: int)
    | ChangeNodes(nodes: map<string, NodeRow>, metrics: map<string, Metrics>)

  /** A row as CreateTask stores it for a submission. Gang fields are left free, although the HTTP
      form leaves them off, so that gangs are covered too. */
  predicate FreshRow(t: Task) {
    && IsTaskId(t.id) && |t.id| == 13
    && t.status == Queued && t.retryCount == 0 && t.assignedNode == None
    && (t.taskType == Split <==> t.splitStrategy != "")
  }

  /** The tasks a sweep puts back in the queue. */
  function RescheduledBy(db: Db, now: int): set<string> {
    set id | id in db.tasks && RunsOn(db.tasks[id], SilentNodes(db, now))
      && db.tasks[id].retryCount < db.tasks[id].retryMax
  }

  /** The tasks that leave a non-terminal status. */
  function Moved(before: Db, after: Db): set<string> {
    set id | id in before.tasks && id in after.tasks &&
             !Terminal(before.tasks[id].status) && after.tasks[id].status != before.tasks[id].status
  }

  ghost predicate StoreStep(s: System, step: Step, after: Db) {
    match step
    case Submit(row) => FreshRow(row) && after == CreateTaskRow(s.db, row)
    case Cancel(id) => after == CancelStep(s.db, id)
    case Retry(id) => after == RetryStep(s.db, id)
    case Poll(nodeId) => PollStep(s.db, after, nodeId)
    case Report(id, status, exitCode) =>
      // agents report what they pulled, as completed or failed
      && (id in s.handedTasks || id in s.handedChunks) && Done(status)
      && after == ReportStep(s.db, id, status, exitCode)
    case Schedule(snapshot, w) =>
      && WorkerSnapshot(s.db, snapshot) && w.workers == |snapshot| && Cycle(s.db, after, snapshot, w)
    case SweepNodes(now) => Sweep(s.db, after, now)
    case ChangeNodes(nodes, metrics) =>
      && (forall id | id in nodes :: nodes[id].id == id)
      && after == s.db.(nodes := nodes, metrics := metrics)
  }

  ghost predicate Next(s: System, step: Step, s': System) {
    && StoreStep(s, step, s'.db)
    && s'.handedTasks == s.handedTasks + (if step.Poll? then multiset(PendingTasks(s.db, step.nodeId)) else multiset{})
    && s'.handedChunks == s.handedChunks +
      (if step.Poll? then multiset(HandedChunksOf(s.db, step.nodeId)) else multiset{})
    && s'.rescheduled == s.rescheduled +
      (if step.SweepNodes? then multiset(RescheduledBy(s.db, step.now)) else multiset{})
    && s'.moves == s.moves + multiset(Moved(s.db, s'.db))
  }

  predicate Init(s: System) {
    s.db.tasks == map[] && s.db.chunks == map[] && s.db.nodes == map[] && s.db.metrics == map[]
    && s.handedTasks == s.handedChunks == s.rescheduled == s.moves == multiset{}
  }

  /** Step i leads from state i to the next one. */
  ghost predicate StepAt(run: seq<System>, steps: seq<Step>, i: nat)
    requires i < |steps| && |run| == |steps| + 1
  {
    Next(run[i], steps[i], run[i + 1])
  }

  /** `run` goes through `steps` from an empty store. */
  ghost predicate IsRun(run: seq<System>, steps: seq<Step>) {
    && |run| == |steps| + 1
    && Init(run[0])
    && forall i: nat | i < |steps| :: StepAt(run, steps, i)
  }

  // ---------- the handlers are steps ----------

  /** What an accepted submission stores is a fresh row, so HandleSubmitTask is a Submit step. */
  lemma SubmissionIsAStep(req: SubmitRequest, id: string, now: int)
    requires IsTaskId(id) && |id| == 13
    ensures FreshRow(SubmittedRow(req, id, now))
  {
  }

  /** A request is acceptable exactly if it has a command, a priority the queue query ranks, a runtime, a
      strategy the splitter knows, and a target that is online, as far as it names them. */
  lemma AcceptableExactly(req: SubmitRequest, db: Db, id: string, now: int)
    ensures var t := SubmittedRow(req, id, now);
      Acceptable(req, db) <==>
        && t.command != "" && CaseRank(t.priority) >= 0
        && (t.splitStrategy == "" || forall w :: SplitPlan(t, w) != Failure(UnknownStrategy))
        && (req.runtime in ["", "bare"] || (req.runtime == "docker" && req.dockerImage != ""))
        && (t.targetNode == "" || exists n :: n in db.nodes && n == t.targetNode && db.nodes[n].status == Online)
  {
    var t := SubmittedRow(req, id, now);
    assert SplitPlan(t, World(map[], 0)) == Failure(UnknownStrategy) <==> !LegalStrategy(t.splitStrategy);
  }

  /** Every submitted task asks for a core, so for a node that passes its constraints the scoring branch
      "remaining < 0" for the CPU is dead, whatever the node reports. */
  lemma SubmittedNeverOvercommits(req: SubmitRequest, id: string, now: int, node: Node)
    requires SatisfiesConstraints(SubmittedRow(req, id, now), node)
    ensures AvailableCores(node) - SubmittedRow(req, id, now).cpuRequired as real >= 0.0
  {
    RemainingNegativeExactly(SubmittedRow(req, id, now), node);
  }

  // ---------- what a step does to one task row ----------

  datatype Change =
    | Stay | Place(node: string) | SplitUp | SplitFail | FormGang
    | CancelIt | ManualRetry | HandOut | Rescue | Give(code: int) | AllDone

  ghost function ChangeOf(s: System, step: Step, id: string): Change
    requires id in s.db.tasks
  {
    var t := s.db.tasks[id];
    match step
    case Submit(_) => Stay
    case Cancel(k) => if k == id && !Terminal(t.status) then CancelIt else Stay
    case Retry(k) => if k == id && Retryable(t) then ManualRetry else Stay
    case Poll(nodeId) => if id in PendingTasks(s.db, nodeId) then HandOut else Stay
    case Report(k, status, exitCode) => ReportChange(s.db, k, status, exitCode, id)
    case Schedule(nodes, w) => ScheduleChange(t, nodes, w)
    case SweepNodes(now) => if RunsOn(t, SilentNodes(s.db, now)) then Rescue else Stay
    case ChangeNodes(_, _) => Stay
  }

  ghost function ReportChange(db: Db, k: string, status: Status, exitCode: int, id: string): Change {
    match IsChunkId(k)
    case None => Stay
    case Some(isChunk) =>
      if isChunk then
        if ParentOf(k) == Some(id) && AllChunksDone(SetChunkStatus(db, k, status, exitCode), id) then AllDone else Stay
      else if k == id then Give(exitCode) else Stay
  }

  ghost function ScheduleChange(t: Task, nodes: seq<Node>, w: World): Change {
    if nodes == [] || !Waiting(t.status) then Stay
    else if IsSplit(t) then if SplitPlan(t, w).Success? then SplitUp else SplitFail
    else if IsGang(t) then if |GangNodes(t, nodes)| < t.worldSize then Stay else FormGang
    else match BestNode(t, nodes) case Some(n) => Place(n.row.id) case None => Stay
  }

  function Changed(t: Task, ch: Change): Task {
    match ch
    case Stay => t
    case Place(node) => Assigned(t, node)
    case SplitUp => t.(status := Splitting)
    case SplitFail => Finished(t, 1)
    case FormGang => t.(status := Scheduled)
    case CancelIt => t.(status := Cancelled)
    case ManualRetry => Requeued(t)
    case HandOut => t.(status := Running)
    case Rescue => Rescued(t)
    case Give(code) => Finished(t, code)
    case AllDone => Finished(t, 0)
  }

  /** When each change can happen to a row that was handed out `handed` times. */
  predicate Allowed(t: Task, ch: Change, handed: nat) {
    match ch
    case Stay => true
    case Place(_) => Waiting(t.status) && !IsSplit(t) && !IsGang(t)
    case SplitUp => Waiting(t.status) && IsSplit(t)
    case SplitFail => Waiting(t.status) && IsSplit(t)
    case FormGang => Waiting(t.status) && IsGang(t)
    case CancelIt => !Terminal(t.status)
    case ManualRetry => Retryable(t)
    case HandOut => t.status == Scheduled
    case Rescue => t.status == Running
    case Give(_) => handed > 0
    case AllDone => true
  }

  function One(b: bool): nat {
    if b then 1 else 0
  }

  /** Every reported item is classified as what it was handed out as. */
  ghost predicate Classified(s: System) {
    && (forall k | k in s.handedTasks :: IsChunkId(k) == Some(false))
    && (forall k | k in s.handedChunks :: IsChunkId(k) == Some(true))
  }

  /** Each task row changes as described. */
  lemma RowChanges(s: System, step: Step, s': System, id: string)
    requires Next(s, step, s') && Classified(s) && id in s.db.tasks
    ensures id in s'.db.tasks
    ensures s'.db.tasks[id] == Changed(s.db.tasks[id], ChangeOf(s, step, id))
    ensures Allowed(s.db.tasks[id], ChangeOf(s, step, id), s.handedTasks[id])
  {
    match step {
      case Submit(row) => SubmitRow(s, row, s'.db, id);
      case Cancel(k) => CancelRow(s, k, id);
      case Retry(k) => RetryRow(s, k, id);
      case Poll(nodeId) => PollRow(s.db, s'.db, nodeId, id);
      case Report(k, status, exitCode) => ReportRow(s, k, status, exitCode, id);
      case Schedule(nodes, w) => ScheduleRow(s.db, s'.db, nodes, w, id);
      case SweepNodes(now) => SweepRow(s.db, s'.db, now, id);
      case ChangeNodes(nodes, metrics) =>
    }
  }

  lemma SubmitRow(s: System, row: Task, after: Db, id: string)
    requires after == CreateTaskRow(s.db, row) && id in s.db.tasks
    ensures id in after.tasks && after.tasks[id] == s.db.tasks[id]
  {
  }

  lemma CancelRow(s: System, k: string, id: string)
    requires id in s.db.tasks
    ensures var t, ch, after := s.db.tasks[id], ChangeOf(s, Cancel(k), id), CancelStep(s.db, k);
      id in after.tasks && after.tasks[id] == Changed(t, ch) && Allowed(t, ch, 0)
  {
  }

  lemma RetryRow(s: System, k: string, id: string)
    requires id in s.db.tasks
    ensures var t, ch, after := s.db.tasks[id], ChangeOf(s, Retry(k), id), RetryStep(s.db, k);
      id in after.tasks && after.tasks[id] == Changed(t, ch) && Allowed(t, ch, 0)
  {
  }

  lemma PollRow(before: Db, after: Db, nodeId: string, id: string)
    requires PollStep(before, after, nodeId) && id in before.tasks
    ensures id in after.tasks
    ensures after.tasks[id] ==
      if id in PendingTasks(before, nodeId) then before.tasks[id].(status := Running) else before.tasks[id]
    ensures id in PendingTasks(before, nodeId) ==> before.tasks[id].status == Scheduled
  {
  }

  lemma SweepRow(before: Db, after: Db, now: int, id: string)
    requires Sweep(before, after, now) && id in before.tasks
    ensures id in after.tasks
    ensures after.tasks[id] ==
      if RunsOn(before.tasks[id], SilentNodes(before, now)) then Rescued(before.tasks[id]) else before.tasks[id]
  {
  }

  lemma ScheduleRow(before: Db, after: Db, nodes: seq<Node>, w: World, id: string)
    requires Cycle(before, after, nodes, w) && id in before.tasks
    ensures var t, ch := before.tasks[id], ScheduleChange(before.tasks[id], nodes, w);
      && id in after.tasks && after.tasks[id] == Changed(t, ch) && Allowed(t, ch, 0)
  {
    if nodes != [] && Waiting(before.tasks[id].status) {
      assert after.tasks[id] == FinalTask(before.tasks[id], nodes, w);
    }
  }

  /** The outcomes of a report. */
  lemma ReportCases(db: Db, k: string, status: Status, exitCode: int)
    ensures var after, moved := ReportStep(db, k, status, exitCode), SetChunkStatus(db, k, status, exitCode);
      match IsChunkId(k)
      case None => after == db
      case Some(false) => after == FinishTask(db, k, exitCode)
      case Some(true) =>
        if ParentOf(k).Some? && AllChunksDone(moved, ParentOf(k).value) then
          after == FinishTask(moved, ParentOf(k).value, 0)
        else after == moved
  {
  }

  lemma ReportRow(s: System, k: string, status: Status, exitCode: int, id: string)
    requires id in s.db.tasks && (k in s.handedTasks || k in s.handedChunks) && Classified(s)
    ensures var after := ReportStep(s.db, k, status, exitCode);
      && id in after.tasks
      && after.tasks[id] == Changed(s.db.tasks[id], ReportChange(s.db, k, status, exitCode, id))
    ensures Allowed(s.db.tasks[id], ReportChange(s.db, k, status, exitCode, id), s.handedTasks[id])
  {
    ReportCases(s.db, k, status, exitCode);
    if IsChunkId(k) == Some(false) {
      assert k in s.handedTasks;
    }
  }

  /** The history counters follow the change. */
  lemma CounterChanges(s: System, step: Step, s': System, id: string)
    requires Next(s, step, s') && id in s.db.tasks
    ensures var t, ch := s.db.tasks[id], ChangeOf(s, step, id);
      && s'.handedTasks[id] == s.handedTasks[id] + One(ch == HandOut)
      && s'.rescheduled[id] == s.rescheduled[id] + One(ch == Rescue && t.retryCount < t.retryMax)
  {
    OnlyPollHandsOut(s, step, id);
  }

  lemma OnlyPollHandsOut(s: System, step: Step, id: string)
    requires id in s.db.tasks
    ensures ChangeOf(s, step, id) == HandOut <==> step.Poll? && id in PendingTasks(s.db, step.nodeId)
    ensures ChangeOf(s, step, id) == Rescue <==> step.SweepNodes? && RunsOn(s.db.tasks[id], SilentNodes(s.db, step.now))
    ensures ChangeOf(s, step, id) == ManualRetry <==> step.Retry? && step.id == id && Retryable(s.db.tasks[id])
  {
  }

  /** Only a submission adds a task row. */
  lemma NewTasks(s: System, step: Step, s': System, id: string)
    requires Next(s, step, s') && id in s'.db.tasks && id !in s.db.tasks
    ensures step.Submit? && id == step.row.id && s'.db.tasks[id] == step.row && FreshRow(step.row)
  {
    if !step.Submit? {
      StepKeepsTaskKeys(s, step, s'.db);
    }
  }

  lemma StepKeepsTaskKeys(s: System, step: Step, after: Db)
    requires StoreStep(s, step, after) && !step.Submit?
    ensures after.tasks.Keys == s.db.tasks.Keys
  {
    if step.Report? {
      ReportKeepsKeys(s.db, step.itemId, step.status, step.exitCode);
    }
  }

  lemma ReportKeepsKeys(db: Db, k: string, status: Status, exitCode: int)
    ensures ReportStep(db, k, status, exitCode).tasks.Keys == db.tasks.Keys
    ensures ReportStep(db, k, status, exitCode).chunks.Keys == db.chunks.Keys
  {
    ReportCases(db, k, status, exitCode);
  }

  lemma CountersOnlyForTasks(s: System, step: Step, s': System, id: string)
    requires Next(s, step, s') && id !in s.db.tasks
    ensures s'.handedTasks[id] == s.handedTasks[id] && s'.rescheduled[id] == s.rescheduled[id]
    ensures s'.moves[id] == s.moves[id]
  {
  }

  // ---------- what a step does to one chunk row ----------

  datatype ChunkChange = ChunkStay | ChunkPlace(node: string) | ChunkHandOut | ChunkDone(status: Status, code: int)

  ghost function ChunkChangeOf(s: System, step: Step, id: string): ChunkChange
    requires id in s.db.chunks
  {
    var c := s.db.chunks[id];
    match step
    case Poll(nodeId) => if id in HandedChunksOf(s.db, nodeId) then ChunkHandOut else ChunkStay
    case Report(k, status, exitCode) => if k == id && IsChunkId(k) == Some(true) then ChunkDone(status, exitCode)
      else ChunkStay
    case Schedule(nodes, w) =>
      if nodes == [] || c.status != Queued || c.parent !in s.db.tasks then ChunkStay
      else (match BestNode(s.db.tasks[c.parent], nodes) case Some(n) => ChunkPlace(n.row.id) case None => ChunkStay)
    case _ => ChunkStay
  }

  function ChunkChanged(c: Chunk, ch: ChunkChange): Chunk {
    match ch
    case ChunkStay => c
    case ChunkPlace(node) => ChunkAssigned(c, node)
    case ChunkHandOut => c.(status := Running)
    case ChunkDone(status, code) => ChunkMoved(c, status, code)
  }

  predicate ChunkAllowed(c: Chunk, ch: ChunkChange, handed: nat) {
    match ch
    case ChunkStay => true
    case ChunkPlace(_) => c.status == Queued
    case ChunkHandOut => c.status == Scheduled
    case ChunkDone(status, _) => handed > 0 && Done(status)
  }

  lemma ChunkRowChanges(s: System, step: Step, s': System, id: string)
    requires Next(s, step, s') && Classified(s) && id in s.db.chunks
    ensures id in s'.db.chunks
    ensures s'.db.chunks[id] == ChunkChanged(s.db.chunks[id], ChunkChangeOf(s, step, id))
    ensures ChunkAllowed(s.db.chunks[id], ChunkChangeOf(s, step, id), s.handedChunks[id])
  {
    match step {
      case Poll(nodeId) => PollChunkRow(s.db, s'.db, nodeId, id);
      case Report(k, status, exitCode) => ReportChunkRow(s, k, status, exitCode, id);
      case Schedule(nodes, w) => ScheduleChunkRow(s.db, s'.db, nodes, w, id);
      case _ => OthersKeepChunks(s, step, s'.db);
    }
  }

  lemma PollChunkRow(before: Db, after: Db, nodeId: string, id: string)
    requires PollStep(before, after, nodeId) && id in before.chunks
    ensures id in after.chunks
    ensures after.chunks[id] ==
      if id in HandedChunksOf(before, nodeId) then before.chunks[id].(status := Running) else before.chunks[id]
    ensures id in HandedChunksOf(before, nodeId) ==> before.chunks[id].status == Scheduled
  {
  }

  lemma ScheduleChunkRow(before: Db, after: Db, nodes: seq<Node>, w: World, id: string)
    requires Cycle(before, after, nodes, w) && id in before.chunks
    ensures id in after.chunks
    ensures after.chunks[id] == if nodes == [] then before.chunks[id] else ChunkAfter(before, id, nodes)
  {
  }

  lemma OthersKeepChunks(s: System, step: Step, after: Db)
    requires StoreStep(s, step, after) && !step.Poll? && !step.Report? && !step.Schedule?
    ensures after.chunks == s.db.chunks
  {
  }

  lemma ReportChunkRow(s: System, k: string, status: Status, exitCode: int, id: string)
    requires id in s.db.chunks && (k in s.handedTasks || k in s.handedChunks) && Classified(s)
    ensures ReportStep(s.db, k, status, exitCode).chunks ==
      if IsChunkId(k) == Some(true) && k in s.db.chunks then
        s.db.chunks[k := ChunkMoved(s.db.chunks[k], status, exitCode)]
      else s.db.chunks
    ensures IsChunkId(k) == Some(true) ==> s.handedChunks[k] > 0
  {
    ReportCases(s.db, k, status, exitCode);
  }

  lemma ChunkCounterChanges(s: System, step: Step, s': System, id: string)
    requires Next(s, step, s') && id in s.db.chunks
    ensures s'.handedChunks[id] == s.handedChunks[id] + One(ChunkChangeOf(s, step, id) == ChunkHandOut)
  {
  }

  /** Only a cycle adds chunk rows, each for a task that was waiting before. */
  lemma NewChunkRows(s: System, step: Step, s': System, k: string)
    requires Next(s, step, s') && Keyed(s.db) && k in s'.db.chunks && k !in s.db.chunks
    ensures step.Schedule? && step.snapshot != []
    ensures var c := s'.db.chunks[k];
      && c.id == k && c.parent in s.db.tasks && Waiting(s.db.tasks[c.parent].status)
      && ChangeOf(s, step, c.parent) != Stay
      && (exists p :: LegalPrefix(p) && k == ChunkId(p, c.parent, c.index))
      && (IsSplit(s.db.tasks[c.parent]) ==> c.status == Queued)
      && (c.status == Queued || c.status == Scheduled)
  {
    if step.Report? {
      ReportKeepsKeys(s.db, step.itemId, step.status, step.exitCode);
    }
    assert step.Schedule?;
    NewChunkRow(s.db, s'.db.chunks, step.snapshot, step.w, k);
  }

  lemma NewChunkRow(db: Db, after: map<string, Chunk>, nodes: seq<Node>, w: World, k: string)
    requires ChunksScheduled(db, after, nodes, w) && Keyed(db) && nodes != [] && k in after && k !in db.chunks
    ensures var c := after[k];
      && c.id == k && c.parent in db.tasks && Waiting(db.tasks[c.parent].status)
      && ScheduleChange(db.tasks[c.parent], nodes, w) != Stay
      && (exists p :: LegalPrefix(p) && k == ChunkId(p, c.parent, c.index))
      && (IsSplit(db.tasks[c.parent]) ==> c.status == Queued)
      && (c.status == Queued || c.status == Scheduled)
  {
    assert NewChunkId(db, k, nodes, w);
    var id, d :| Inserted(db, id, d, nodes, w) && StoredChunk(d).id == k;
    NewChunkShape(db.tasks[id], nodes, w, d);
    NewChunkStatus(db.tasks[id], nodes, w, d);
    NewChunksMeanChange(db.tasks[id], nodes, w, d);
    assert after[k] == StoredChunk(d);
  }

  lemma NewChunksMeanChange(t: Task, nodes: seq<Node>, w: World, d: Chunk)
    requires d in NewChunks(t, nodes, w) && Waiting(t.status) && nodes != []
    ensures ScheduleChange(t, nodes, w) != Stay
  {
  }

  lemma NewChunkStatus(t: Task, nodes: seq<Node>, w: World, d: Chunk)
    requires d in NewChunks(t, nodes, w)
    ensures IsSplit(t) ==> d.status == Queued
    ensures d.status == Queued || d.status == Scheduled
  {
    if IsSplit(t) {
      assert d == PlannedChunk(t, d.index);
    }
  }

  lemma ChunkCountersOnlyForChunks(s: System, step: Step, s': System, k: string)
    requires Next(s, step, s') && k !in s.db.chunks
    ensures s'.handedChunks[k] == s.handedChunks[k]
  {
  }
}
