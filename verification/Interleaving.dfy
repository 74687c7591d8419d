/** The controller at the grain of single store calls: the scheduler, the sweeper and any number of
    request handlers interleave, each acting on what it read earlier (controller/state/store.go takes
    Store.mu once per call). */
module Interleaving {
  import opened Records
  import opened ChunkIds
  import opened Placement
  import opened SplitPlans
  import opened TaskStore
  import opened Scheduling
  import opened Heartbeats
  import opened Handlers
  import opened Lifecycle

  /** A store call with its arguments decided. */
  datatype Call =
    | SetStatus(id: string, status: Status)
    | Assign(id: string, nodeId: string)
    | Finish(id: string, exitCode: int)
    | Requeue(id: string)
    | NewChunk(chunk: Chunk)
    | PlaceChunk(chunkId: string, nodeId: string)
    | MoveChunk(chunkId: string, status: Status, exitCode: int)
    | SetMetrics(nodeId: string, m: Metrics)

  function Exec(db: Db, call: Call): Db {
    match call
    case SetStatus(id, status) => SetTaskStatus(db, id, status)
    case Assign(id, nodeId) => AssignTask(db, id, nodeId)
    case Finish(id, exitCode) => FinishTask(db, id, exitCode)
    case Requeue(id) => RequeueTask(db, id)
    case NewChunk(c) => db.(chunks := InsertChunk(db.chunks, c))
    case PlaceChunk(k, nodeId) => AssignChunk(db, k, nodeId)
    case MoveChunk(k, status, exitCode) => SetChunkStatus(db, k, status, exitCode)
    case SetMetrics(nodeId, m) => db.(metrics := db.metrics[nodeId := m])
  }

  /** The scheduler between two store calls of a cycle. */
  datatype Scheduler =
    | Idle
    | GotTasks(tasks: seq<Task>)
    | GotChunks(tasks: seq<Task>, chunks: seq<Chunk>)
    | Working(todo: seq<Call>, tasks: seq<Task>, chunks: seq<Chunk>, nodes: seq<Node>)

  /** The sweeper between two store calls of a sweep. */
  datatype Sweeper =
    | Resting
    | AtNodes(nodes: seq<NodeRow>)
    | Lost(nodeId: string, nodes: seq<NodeRow>)
    | AtTasks(nodeId: string, tasks: seq<Task>, nodes: seq<NodeRow>)

  /** A request handler between two store calls. A poll first reads the tasks, then the chunks, and then
      hands both out one by one, marking each as running. */
  datatype Handler =
    | PollRead(nodeId: string, taskIds: seq<string>)
    | Polling(nodeId: string, taskIds: seq<string>, chunkIds: seq<string>)
    | ChunkReported(parent: string)
    | Calls(todo: seq<Call>)

  /** `rescheduled` counts the sweeper's retries of each task, `handedTasks` and `handedChunks` how often
      each item was handed to an agent. */
  datatype Machine = Machine(
    db: Db,
    scheduler: Scheduler,
    sweeper: Sweeper,
    handlers: seq<Handler>,
    rescheduled: multiset<string>,
    handedTasks: multiset<string>,
    handedChunks: multiset<string>)

  // ---------- the scheduler's calls for one task ----------

  function GangCalls(t: Task, gang: seq<Node>): seq<Call> {
    if gang == [] then []
    else
      var r := |gang| - 1;
      GangCalls(t, gang[..r]) + [NewChunk(GangChunk(t, r, gang[r])), SetMetrics(gang[r].row.id, BusyMetrics(gang[r]))]
  }

  function ChunkCalls(chunks: seq<Chunk>): (calls: seq<Call>)
    ensures |calls| == |chunks|
  {
    seq(|chunks|, i requires 0 <= i < |chunks| => NewChunk(chunks[i]))
  }

  /** What one turn of the task loop calls, given the snapshots. */
  ghost function TaskCalls(t: Task, nodes: seq<Node>, w: World): seq<Call> {
    if IsSplit(t) then
      match SplitPlan(t, w)
      case Failure(_) => [Finish(t.id, 1)]
      case Success(chunks) => ChunkCalls(chunks) + [SetStatus(t.id, Splitting)]
    else if IsGang(t) then
      var gang := GangNodes(t, nodes);
      if |gang| < t.worldSize then [] else GangCalls(t, gang) + [SetStatus(t.id, Scheduled)]
    else
      match BestNode(t, nodes)
      case None => []
      case Some(n) => [Assign(t.id, n.row.id), SetMetrics(n.row.id, BusyMetrics(n))]
  }

  // ---------- steps ----------

  /** `rows` are the current rows of a query on tasks, each once, in any order. */
  ghost predicate TaskRows(db: Db, rows: seq<Task>, keys: set<string>) {
    && (forall i | 0 <= i < |rows| :: rows[i].id in keys && rows[i].id in db.tasks && rows[i] == db.tasks[rows[i].id])
    && (forall i, j | 0 <= i < j < |rows| :: rows[i].id != rows[j].id)
    && (forall k | k in keys :: exists i :: 0 <= i < |rows| && rows[i].id == k)
  }

  ghost predicate ChunkRows(db: Db, rows: seq<Chunk>, keys: set<string>) {
    && (forall i | 0 <= i < |rows| :: rows[i].id in keys && rows[i].id in db.chunks && rows[i] == db.chunks[rows[i].id])
    && (forall i, j | 0 <= i < j < |rows| :: rows[i].id != rows[j].id)
    && (forall k | k in keys :: exists i :: 0 <= i < |rows| && rows[i].id == k)
  }

  datatype SchedulerStep =
    | SchedulerReadTasks(tasks: seq<Task>)
    | SchedulerReadChunks(chunks: seq<Chunk>)
    | SchedulerReadNodes(snapshot: seq<Node>)
    | SchedulerNextTask(w: World)
    | SchedulerNextChunk
    | SchedulerCall
    | SchedulerEnd

  datatype SweeperStep =
    | SweeperReadNodes(nodes: seq<NodeRow>)
    | SweeperNextNode(now: int)
    | SweeperReadTasks(tasks: seq<Task>)
    | SweeperNextTask
    | SweeperNodeDone
    | SweeperEnd

  datatype RequestStep =
    | Submit(row: Task)
    | CancelRead(id: string)
    | RetryRead(id: string)
    | PollTasks(nodeId: string, taskIds: seq<string>)
    | PollChunks(h: nat, chunkIds: seq<string>)
    | HandOut(h: nat)
    | Report(itemId: string, status: Status, exitCode: int)
    | CheckChunks(h: nat)
    | HandlerCall(h: nat)

  datatype FineStep =
    | ByScheduler(scheduler: SchedulerStep)
    | BySweeper(sweeper: SweeperStep)
    | ByRequest(request: RequestStep)
    | NodesChange(table: map<string, NodeRow>, metrics: map<string, Metrics>)

  ghost predicate SchedulerNext(s: Machine, step: SchedulerStep, s': Machine) {
    match step
    case SchedulerReadTasks(tasks) =>
      s.scheduler.Idle? && TaskRows(s.db, tasks, WaitingTasks(s.db)) && s' == s.(scheduler := GotTasks(tasks))
    case SchedulerReadChunks(chunks) =>
      s.scheduler.GotTasks? && ChunkRows(s.db, chunks, QueuedChunks(s.db))
        && s' == s.(scheduler := GotChunks(s.scheduler.tasks, chunks))
    case SchedulerReadNodes(nodes) =>
      s.scheduler.GotChunks? && WorkerSnapshot(s.db, nodes) &&
      s' == s.(scheduler := if nodes == [] then Idle else Working([], s.scheduler.tasks, s.scheduler.chunks, nodes))
    case SchedulerNextTask(w) =>
      && s.scheduler.Working? && s.scheduler.todo == [] && s.scheduler.tasks != []
      && s' == s.(scheduler :=
        s.scheduler.(todo := TaskCalls(s.scheduler.tasks[0], s.scheduler.nodes, w), tasks := s.scheduler.tasks[1..]))
    case SchedulerNextChunk =>
      && s.scheduler.Working? && s.scheduler.todo == [] && s.scheduler.tasks == [] && s.scheduler.chunks != []
      && s' == s.(scheduler := s.scheduler.(chunks := s.scheduler.chunks[1..],
                                            todo := ChunkPlacement(s.db, s.scheduler.chunks[0], s.scheduler.nodes)))
    case SchedulerCall =>
      && s.scheduler.Working? && s.scheduler.todo != []
      && s' == s.(db := Exec(s.db, s.scheduler.todo[0]), scheduler := s.scheduler.(todo := s.scheduler.todo[1..]))
    case SchedulerEnd =>
      && s.scheduler.Working? && s.scheduler.todo == [] && s.scheduler.tasks == [] && s.scheduler.chunks == []
      && s' == s.(scheduler := Idle)
  }

  ghost predicate SweeperNext(s: Machine, step: SweeperStep, s': Machine) {
    match step
    case SweeperReadNodes(nodes) =>
      s.sweeper.Resting? && (forall n | n in nodes :: n.id in s.db.nodes && s.db.nodes[n.id] == n)
        && s' == s.(sweeper := AtNodes(nodes))
    case SweeperNextNode(now) =>
      && s.sweeper.AtNodes? && s.sweeper.nodes != []
      && var n, rest := s.sweeper.nodes[0], s.sweeper.nodes[1..];
      if Silent(n, now) then s' == s.(db := SetNodeStatus(s.db, n.id, Offline), sweeper := Lost(n.id, rest))
      else s' == s.(sweeper := AtNodes(rest))
    case SweeperReadTasks(tasks) =>
      && s.sweeper.Lost? && TaskRows(s.db, tasks, RunningTasks(s.db))
      && s' == s.(sweeper := AtTasks(s.sweeper.nodeId, tasks, s.sweeper.nodes))
    case SweeperNextTask =>
      && s.sweeper.AtTasks? && s.sweeper.tasks != []
      && var t := s.sweeper.tasks[0];
      var next := s.(sweeper := s.sweeper.(tasks := s.sweeper.tasks[1..]));
      if TextOf(t.assignedNode) != s.sweeper.nodeId then s' == next
      else if t.retryCount < t.retryMax then
        s' == next.(db := RequeueTask(s.db, t.id), rescheduled := s.rescheduled + multiset{t.id})
      else s' == next.(db := FinishTask(s.db, t.id, 1))
    case SweeperNodeDone =>
      s.sweeper.AtTasks? && s.sweeper.tasks == [] && s' == s.(sweeper := AtNodes(s.sweeper.nodes))
    case SweeperEnd => s.sweeper.AtNodes? && s.sweeper.nodes == [] && s' == s.(sweeper := Resting)
  }

  ghost predicate RequestNext(s: Machine, step: RequestStep, s': Machine) {
    match step
    case Submit(row) => FreshRow(row) && s' == s.(db := CreateTaskRow(s.db, row))
    case CancelRead(id) =>
      && id in s.db.tasks && !Terminal(s.db.tasks[id].status)
      && s' == s.(handlers := s.handlers + [Calls([SetStatus(id, Cancelled)])])
    case RetryRead(id) =>
      && id in s.db.tasks && Retryable(s.db.tasks[id])
      && s' == s.(handlers := s.handlers + [Calls([Requeue(id)])])
    case PollTasks(nodeId, taskIds) =>
      Lists(taskIds, PendingTasks(s.db, nodeId)) && s' == s.(handlers := s.handlers + [PollRead(nodeId, taskIds)])
    case PollChunks(h, chunkIds) =>
      && h < |s.handlers| && s.handlers[h].PollRead? && Lists(chunkIds, HandedChunksOf(s.db, s.handlers[h].nodeId))
      && s' == s.(handlers := s.handlers[h := Polling(s.handlers[h].nodeId, s.handlers[h].taskIds, chunkIds)])
    case HandOut(h) => h < |s.handlers| && s.handlers[h].Polling? && HandOutNext(s, h, s')
    case Report(k, status, exitCode) => ReportRead(s, k, status, exitCode, s')
    case CheckChunks(h) =>
      && h < |s.handlers| && s.handlers[h].ChunkReported?
      && s' == s.(handlers := s.handlers[h :=
        Calls(if AllChunksDone(s.db, s.handlers[h].parent) then [Finish(s.handlers[h].parent, 0)] else [])])
    case HandlerCall(h) =>
      && h < |s.handlers| && s.handlers[h].Calls? && s.handlers[h].todo != []
      && s' == s.(db := Exec(s.db, s.handlers[h].todo[0]), handlers := s.handlers[h := Calls(s.handlers[h].todo[1..])])
  }

  ghost predicate FineNext(s: Machine, step: FineStep, s': Machine) {
    match step
    case ByScheduler(st) => SchedulerNext(s, st, s')
    case BySweeper(st) => SweeperNext(s, st, s')
    case ByRequest(st) => RequestNext(s, st, s')
    case NodesChange(table, metrics) => s' == s.(db := s.db.(nodes := table, metrics := metrics))
  }

  ghost function ChunkPlacement(db: Db, c: Chunk, nodes: seq<Node>): seq<Call> {
    if c.parent !in db.tasks then []
    else match BestNode(db.tasks[c.parent], nodes) case Some(n) => [PlaceChunk(c.id, n.row.id)] case None => []
  }

  /** A poll hands out its next item: the tasks first, then the chunks. */
  ghost predicate HandOutNext(s: Machine, h: nat, s': Machine)
    requires h < |s.handlers| && s.handlers[h].Polling?
  {
    var p := s.handlers[h];
    if p.taskIds != [] then
      s' == s.(db := Exec(s.db, SetStatus(p.taskIds[0], Running)),
               handlers := s.handlers[h := p.(taskIds := p.taskIds[1..])],
               handedTasks := s.handedTasks + multiset{p.taskIds[0]})
    else
      && p.chunkIds != []
      && s' == s.(db := Exec(s.db, MoveChunk(p.chunkIds[0], Running, 0)),
                  handlers := s.handlers[h := p.(chunkIds := p.chunkIds[1..])],
                  handedChunks := s.handedChunks + multiset{p.chunkIds[0]})
  }

  /** The calls a poll makes to hand out what it has read. */
  function PollCalls(taskIds: seq<string>, chunkIds: seq<string>): seq<Call> {
    StartTasks(taskIds) + StartChunks(chunkIds)
  }

  function StartTasks(ids: seq<string>): (calls: seq<Call>)
    ensures |calls| == |ids|
  {
    seq(|ids|, i requires 0 <= i < |ids| => SetStatus(ids[i], Running))
  }

  function StartChunks(ids: seq<string>): (calls: seq<Call>)
    ensures |calls| == |ids|
  {
    seq(|ids|, i requires 0 <= i < |ids| => MoveChunk(ids[i], Running, 0))
  }

  /** The first call of a report, for any ID, status and exit code. */
  ghost predicate ReportRead(s: Machine, k: string, status: Status, exitCode: int, s': Machine) {
    match IsChunkId(k)
    case None => s' == s
    case Some(isChunk) =>
      if isChunk then
        s' == s.(db := SetChunkStatus(s.db, k, status, exitCode),
                 handlers := s.handlers +
                   (match ParentOf(k) case Some(parent) => [ChunkReported(parent)] case None => []))
      else s' == s.(db := FinishTask(s.db, k, exitCode))
  }

  predicate FineInit(s: Machine) {
    s == Machine(Db(map[], map[], map[], map[]), Idle, Resting, [], multiset{}, multiset{}, multiset{})
  }

  /** Step i leads from state i to the next one. */
  ghost predicate FineStepAt(run: seq<Machine>, steps: seq<FineStep>, i: nat)
    requires i < |steps| && |run| == |steps| + 1
  {
    FineNext(run[i], steps[i], run[i + 1])
  }

  ghost predicate IsFineRun(run: seq<Machine>, steps: seq<FineStep>) {
    && |run| == |steps| + 1
    && FineInit(run[0])
    && forall i: nat | i < |steps| :: FineStepAt(run, steps, i)
  }

  // ---------- undisturbed, the calls are the atomic steps ----------

  function ExecAll(db: Db, calls: seq<Call>): Db {
    if calls == [] then db else Exec(ExecAll(db, calls[..|calls| - 1]), calls[|calls| - 1])
  }

  lemma ExecOneMore(db: Db, calls: seq<Call>, call: Call)
    ensures ExecAll(db, calls + [call]) == Exec(ExecAll(db, calls), call)
  {
    assert (calls + [call])[..|calls|] == calls;
  }

  lemma ExecOne(db: Db, call: Call)
    ensures ExecAll(db, [call]) == Exec(db, call)
  {
    assert [call][..0] == [];
  }

  lemma {:induction false} ExecConcat(db: Db, a: seq<Call>, b: seq<Call>)
    ensures ExecAll(db, a + b) == ExecAll(ExecAll(db, a), b)
    decreases |b|
  {
    if b == [] {
      assert a + b == a;
    } else {
      assert (a + b)[..|a + b| - 1] == a + b[..|b| - 1];
      ExecConcat(db, a, b[..|b| - 1]);
    }
  }

  lemma {:induction false} ChunkCallsInsert(db: Db, chunks: seq<Chunk>)
    ensures ExecAll(db, ChunkCalls(chunks)) == db.(chunks := InsertAll(db.chunks, chunks))
  {
    if chunks != [] {
      var front := chunks[..|chunks| - 1];
      ChunkCallsInsert(db, front);
      assert ChunkCalls(chunks)[..|chunks| - 1] == ChunkCalls(front);
    }
  }

  lemma ExecTwoMore(db: Db, calls: seq<Call>, a: Call, b: Call)
    ensures ExecAll(db, calls + [a, b]) == Exec(Exec(ExecAll(db, calls), a), b)
  {
    assert calls + [a, b] == calls + [a] + [b];
    ExecOneMore(db, calls, a);
    ExecOneMore(db, calls + [a], b);
  }

  lemma {:induction false} GangCallsInsert(db: Db, t: Task, gang: seq<Node>)
    ensures ExecAll(db, GangCalls(t, gang)) ==
      db.(chunks := InsertAll(db.chunks, GangChunks(t, gang)), metrics := BusyAll(db.metrics, gang))
  {
    if gang != [] {
      var r := |gang| - 1;
      GangCallsInsert(db, t, gang[..r]);
      ExecTwoMore(db, GangCalls(t, gang[..r]), NewChunk(GangChunk(t, r, gang[r])),
                  SetMetrics(gang[r].row.id, BusyMetrics(gang[r])));
      ExecMember(db, InsertAll(db.chunks, GangChunks(t, gang[..r])), BusyAll(db.metrics, gang[..r]),
                 GangChunk(t, r, gang[r]), gang[r]);
      LastGangMember(db.chunks, t, gang);
    }
  }

  lemma ExecMember(db: Db, chunks: map<string, Chunk>, metrics: map<string, Metrics>, c: Chunk, n: Node)
    ensures Exec(Exec(db.(chunks := chunks, metrics := metrics), NewChunk(c)), SetMetrics(n.row.id, BusyMetrics(n))) ==
      db.(chunks := InsertChunk(chunks, c), metrics := metrics[n.row.id := BusyMetrics(n)])
  {
  }

  lemma LastGangMember(chunks: map<string, Chunk>, t: Task, gang: seq<Node>)
    requires gang != []
    ensures var r := |gang| - 1;
      InsertAll(chunks, GangChunks(t, gang)) ==
        InsertChunk(InsertAll(chunks, GangChunks(t, gang[..r])), GangChunk(t, r, gang[r]))
  {
    assert GangChunks(t, gang)[..|gang| - 1] == GangChunks(t, gang[..|gang| - 1]);
  }

  /** The scheduler's calls for one task, run without interruption on a fresh snapshot, are the turn
      of the task loop. */
  lemma CallsAreTurn(db: Db, t: Task, nodes: seq<Node>, w: World)
    requires t.id in db.tasks && db.tasks[t.id] == t
    ensures ExecAll(db, TaskCalls(t, nodes, w)) == TaskTurn(db, t, nodes, w)
  {
    if IsSplit(t) {
      SplitCallsAreTurn(db, t, nodes, w);
    } else if IsGang(t) {
      GangCallsAreTurn(db, t, nodes, w);
    } else {
      PlaceCallsAreTurn(db, t, nodes, w);
    }
  }

  lemma SplitCallsAreTurn(db: Db, t: Task, nodes: seq<Node>, w: World)
    requires t.id in db.tasks && db.tasks[t.id] == t && IsSplit(t)
    ensures ExecAll(db, TaskCalls(t, nodes, w)) == TaskTurn(db, t, nodes, w)
  {
    match SplitPlan(t, w) {
      case Failure(_) =>
        ExecOneMore(db, [], Finish(t.id, 1));
        assert [] + [Finish(t.id, 1)] == [Finish(t.id, 1)];
      case Success(chunks) =>
        ChunkCallsInsert(db, chunks);
        ExecOneMore(db, ChunkCalls(chunks), SetStatus(t.id, Splitting));
    }
  }

  lemma GangCallsAreTurn(db: Db, t: Task, nodes: seq<Node>, w: World)
    requires t.id in db.tasks && db.tasks[t.id] == t && IsGang(t)
    ensures ExecAll(db, TaskCalls(t, nodes, w)) == TaskTurn(db, t, nodes, w)
  {
    var gang := GangNodes(t, nodes);
    if |gang| < t.worldSize {
      assert gang == [];
      assert db.tasks[t.id := t] == db.tasks;
    } else {
      GangCallsInsert(db, t, gang);
      ExecOneMore(db, GangCalls(t, gang), SetStatus(t.id, Scheduled));
    }
  }

  lemma PlaceCallsAreTurn(db: Db, t: Task, nodes: seq<Node>, w: World)
    requires t.id in db.tasks && db.tasks[t.id] == t && !IsSplit(t) && !IsGang(t)
    ensures ExecAll(db, TaskCalls(t, nodes, w)) == TaskTurn(db, t, nodes, w)
  {
    match BestNode(t, nodes) {
      case None => assert db.tasks[t.id := t] == db.tasks;
      case Some(n) => PlacementCalls(db, t.id, n);
    }
  }

  lemma PlacementCalls(db: Db, id: string, n: Node)
    requires id in db.tasks
    ensures ExecAll(db, [Assign(id, n.row.id), SetMetrics(n.row.id, BusyMetrics(n))]) ==
      db.(tasks := db.tasks[id := Assigned(db.tasks[id], n.row.id)], metrics := BusyAll(db.metrics, [n]))
  {
    ExecTwo(db, Assign(id, n.row.id), SetMetrics(n.row.id, BusyMetrics(n)));
    ExecPlacement(db, id, n);
    BusyOne(db.metrics, n);
  }

  lemma ExecPlacement(db: Db, id: string, n: Node)
    requires id in db.tasks
    ensures Exec(Exec(db, Assign(id, n.row.id)), SetMetrics(n.row.id, BusyMetrics(n))) ==
      db.(tasks := db.tasks[id := Assigned(db.tasks[id], n.row.id)], metrics := db.metrics[n.row.id := BusyMetrics(n)])
  {
  }

  lemma ExecTwo(db: Db, a: Call, b: Call)
    ensures ExecAll(db, [a, b]) == Exec(Exec(db, a), b)
  {
    assert [a, b] == [a] + [b];
    ExecOneMore(db, [a], b);
    ExecOne(db, a);
  }

  lemma BusyOne(m: map<string, Metrics>, n: Node)
    ensures BusyAll(m, [n]) == m[n.row.id := BusyMetrics(n)]
  {
    assert [n][..0] == [];
  }

  /** So is the call for one queued chunk. */
  lemma ChunkCallIsTurn(db: Db, c: Chunk, nodes: seq<Node>)
    requires c.id in db.chunks && db.chunks[c.id] == c
    ensures ExecAll(db, ChunkPlacement(db, c, nodes)) ==
      db.(chunks := db.chunks[c.id := FinalChunk(c, db.tasks, nodes)])
  {
    if c.parent in db.tasks && BestNode(db.tasks[c.parent], nodes).Some? {
      ExecOne(db, PlaceChunk(c.id, BestNode(db.tasks[c.parent], nodes).value.row.id));
    } else {
      assert db.chunks[c.id := c] == db.chunks;
    }
  }

  /** The sweeper's turn for a task whose row has not changed since it was read rescues exactly that
      task, if it runs on the lost node. */
  lemma UndisturbedRescue(s: Machine, s': Machine)
    requires SweeperNext(s, SweeperNextTask, s')
    requires var t := s.sweeper.tasks[0]; t.id in s.db.tasks && s.db.tasks[t.id] == t && t.status == Running
    ensures var t := s.sweeper.tasks[0];
      s'.db == s.db.(tasks := s.db.tasks[t.id := if RunsOn(t, {s.sweeper.nodeId}) then Rescued(t) else t])
  {
    var t := s.sweeper.tasks[0];
    assert s.db.tasks[t.id := t] == s.db.tasks;
  }

  /** The rows `ids` marked as running. */
  function TasksRunning(tasks: map<string, Task>, ids: seq<string>): map<string, Task> {
    map id | id in tasks :: if id in ids then tasks[id].(status := Running) else tasks[id]
  }

  function ChunksRunning(chunks: map<string, Chunk>, ids: seq<string>): map<string, Chunk> {
    map k | k in chunks :: if k in ids then chunks[k].(status := Running) else chunks[k]
  }

  lemma {:induction false} TasksStarted(db: Db, ids: seq<string>)
    requires forall i | 0 <= i < |ids| :: ids[i] in db.tasks
    ensures ExecAll(db, StartTasks(ids)) == db.(tasks := TasksRunning(db.tasks, ids))
  {
    if ids == [] {
      assert TasksRunning(db.tasks, ids) == db.tasks;
    } else {
      var n := |ids| - 1;
      TasksStarted(db, ids[..n]);
      assert StartTasks(ids)[..n] == StartTasks(ids[..n]);
      NextTaskRunning(db.tasks, ids);
    }
  }

  lemma NextTaskRunning(tasks: map<string, Task>, ids: seq<string>)
    requires ids != [] && forall i | 0 <= i < |ids| :: ids[i] in tasks
    ensures var front, id := TasksRunning(tasks, ids[..|ids| - 1]), ids[|ids| - 1];
      TasksRunning(tasks, ids) == front[id := front[id].(status := Running)]
  {
    assert forall k :: k in ids <==> k in ids[..|ids| - 1] || k == ids[|ids| - 1];
  }

  lemma {:induction false} ChunksStarted(db: Db, ids: seq<string>)
    requires forall i | 0 <= i < |ids| :: ids[i] in db.chunks
    ensures ExecAll(db, StartChunks(ids)) == db.(chunks := ChunksRunning(db.chunks, ids))
  {
    if ids == [] {
      assert ChunksRunning(db.chunks, ids) == db.chunks;
    } else {
      var n := |ids| - 1;
      ChunksStarted(db, ids[..n]);
      assert StartChunks(ids)[..n] == StartChunks(ids[..n]);
      NextChunkRunning(db.chunks, ids);
    }
  }

  lemma NextChunkRunning(chunks: map<string, Chunk>, ids: seq<string>)
    requires ids != [] && forall i | 0 <= i < |ids| :: ids[i] in chunks
    ensures var front, k := ChunksRunning(chunks, ids[..|ids| - 1]), ids[|ids| - 1];
      ChunksRunning(chunks, ids) == front[k := front[k].(status := Running)]
  {
    assert forall k :: k in ids <==> k in ids[..|ids| - 1] || k == ids[|ids| - 1];
  }

  /** The hand-outs of a poll are its calls, one after the other. */
  lemma HandOutIsNextCall(s: Machine, h: nat, s': Machine)
    requires h < |s.handlers| && s.handlers[h].Polling? && HandOutNext(s, h, s')
    ensures var p := s.handlers[h]; var calls := PollCalls(p.taskIds, p.chunkIds);
      && calls != [] && s'.db == Exec(s.db, calls[0])
      && |s'.handlers| == |s.handlers| && s'.handlers[h].Polling?
      && calls[1..] == PollCalls(s'.handlers[h].taskIds, s'.handlers[h].chunkIds)
  {
    var p, q := s.handlers[h], s'.handlers[h];
    if p.taskIds != [] {
      assert StartTasks(q.taskIds) == StartTasks(p.taskIds)[1..];
    } else {
      assert StartChunks(q.chunkIds) == StartChunks(p.chunkIds)[1..];
    }
  }

  /** The calls of a poll, run without interruption, are the poll step, in whatever order the rows come. */
  lemma CallsArePoll(db: Db, nodeId: string, taskIds: seq<string>, chunkIds: seq<string>)
    requires Lists(taskIds, PendingTasks(db, nodeId)) && Lists(chunkIds, HandedChunksOf(db, nodeId))
    ensures PollStep(db, ExecAll(db, PollCalls(taskIds, chunkIds)), nodeId)
  {
    ExecConcat(db, StartTasks(taskIds), StartChunks(chunkIds));
    TasksStarted(db, taskIds);
    var started := ExecAll(db, StartTasks(taskIds));
    ChunksStarted(started, chunkIds);
    assert forall id :: id in taskIds <==> id in PendingTasks(db, nodeId);
    assert forall k :: k in chunkIds <==> k in HandedChunksOf(db, nodeId);
  }

  // ---------- the invariant ----------

  /** Neither a waiting nor a split task has a node, and a split task is never scheduled. */
  predicate RowOk(t: Task, rescheduled: nat) {
    && (Waiting(t.status) || IsSplit(t) ==> TextOf(t.assignedNode) == "")
    && (IsSplit(t) ==> t.status != Scheduled)
    && rescheduled <= t.retryCount && rescheduled <= RetryBudget(t)
  }

  /** A decided call never puts a task in the queue except by Requeue, and never gives a split task a
      node or the status scheduled. */
  predicate CallOk(db: Db, call: Call) {
    match call
    case SetStatus(id, status) => !Waiting(status) && (status == Scheduled ==> id in db.tasks && !IsSplit(db.tasks[id]))
    case Assign(id, _) => id in db.tasks && !IsSplit(db.tasks[id])
    case _ => true
  }

  /** What the scheduler decides to call: it never requeues a task or reports for a chunk, and a chunk it
      inserts is open and named after its parent. */
  ghost predicate ScheduleCallOk(db: Db, call: Call) {
    match call
    case SetStatus(id, status) => status == Splitting
      || (status == Scheduled && id in db.tasks && !IsSplit(db.tasks[id]))
    case Assign(id, _) => id in db.tasks && !IsSplit(db.tasks[id])
    case NewChunk(c) => NamedChunk(db, StoredChunk(c))
      && (StoredChunk(c).status == Queued || StoredChunk(c).status == Scheduled)
    case Requeue(_) => false
    case MoveChunk(_, _, _) => false
    case _ => true
  }

  /** What a cancel, a retry or a chunk report calls after its read. */
  predicate HandlerCallOk(call: Call) {
    match call
    case SetStatus(_, status) => status == Cancelled
    case Requeue(_) => true
    case Finish(_, exitCode) => exitCode == 0
    case _ => false
  }

  ghost predicate NamedChunk(db: Db, c: Chunk) {
    c.parent in db.tasks && exists p :: LegalPrefix(p) && c.id == ChunkId(p, c.parent, c.index)
  }

  ghost predicate ChunksOk(db: Db) {
    forall k | k in db.chunks :: db.chunks[k].id == k && NamedChunk(db, db.chunks[k])
  }

  /** A row read earlier still agrees with the table on what never changes. */
  predicate SnapshotOk(db: Db, t: Task) {
    t.id in db.tasks && (IsSplit(t) <==> IsSplit(db.tasks[t.id])) && t.retryMax == db.tasks[t.id].retryMax
  }

  ghost predicate CallsOk(db: Db, todo: seq<Call>) {
    forall i | 0 <= i < |todo| :: ScheduleCallOk(db, todo[i])
  }

  ghost predicate SchedulerOk(db: Db, p: Scheduler) {
    match p
    case Idle => true
    case GotTasks(tasks) => forall i | 0 <= i < |tasks| :: SnapshotOk(db, tasks[i])
    case GotChunks(tasks, _) => forall i | 0 <= i < |tasks| :: SnapshotOk(db, tasks[i])
    case Working(todo, tasks, _, _) => CallsOk(db, todo) && forall i | 0 <= i < |tasks| :: SnapshotOk(db, tasks[i])
  }

  /** Each task the sweeper still has to look at was rescheduled at most as often as it had been
      retried when the sweeper read it. */
  ghost predicate SweeperOk(db: Db, p: Sweeper, rescheduled: multiset<string>) {
    p.AtTasks? ==>
      && (forall i | 0 <= i < |p.tasks| ::
        SnapshotOk(db, p.tasks[i]) && rescheduled[p.tasks[i].id] <= p.tasks[i].retryCount)
      && (forall i, j | 0 <= i < j < |p.tasks| :: p.tasks[i].id != p.tasks[j].id)
  }

  predicate HandlerOk(p: Handler) {
    p.Calls? ==> |p.todo| <= 1 && forall i | 0 <= i < |p.todo| :: HandlerCallOk(p.todo[i])
  }

  ghost predicate HandlersOk(handlers: seq<Handler>) {
    forall h | 0 <= h < |handlers| :: HandlerOk(handlers[h])
  }

  ghost predicate TableOk(db: Db, rescheduled: multiset<string>) {
    && (forall id | id in db.tasks :: db.tasks[id].id == id && IsTaskId(id) && RowOk(db.tasks[id], rescheduled[id]))
    && (forall id | id !in db.tasks :: rescheduled[id] == 0)
  }

  ghost predicate FineInv(s: Machine) {
    && TableOk(s.db, s.rescheduled)
    && ChunksOk(s.db)
    && SchedulerOk(s.db, s.scheduler)
    && SweeperOk(s.db, s.sweeper, s.rescheduled)
    && HandlersOk(s.handlers)
  }

  /** Rows are never deleted and never change what makes them split or how often they may be retried. */
  ghost predicate Grows(a: Db, b: Db) {
    forall id | id in a.tasks ::
      id in b.tasks && (IsSplit(b.tasks[id]) <==> IsSplit(a.tasks[id])) && b.tasks[id].retryMax == a.tasks[id].retryMax
  }

  lemma ExecGrows(db: Db, call: Call)
    ensures Grows(db, Exec(db, call))
  {
  }

  lemma ExecKeepsTable(db: Db, call: Call, rescheduled: multiset<string>)
    requires TableOk(db, rescheduled) && CallOk(db, call)
    ensures TableOk(Exec(db, call), rescheduled)
  {
    var after := Exec(db, call);
    forall id | id in after.tasks
      ensures id in db.tasks && after.tasks[id].id == id && RowOk(after.tasks[id], rescheduled[id])
    {
      ExecRow(db, call, rescheduled, id);
    }
  }

  lemma ExecRow(db: Db, call: Call, rescheduled: multiset<string>, id: string)
    requires TableOk(db, rescheduled) && CallOk(db, call) && id in Exec(db, call).tasks
    ensures id in db.tasks && Exec(db, call).tasks[id].id == id && RowOk(Exec(db, call).tasks[id], rescheduled[id])
  {
  }

  /** A chunk row keeps its name, and only an insert brings a new one. */
  lemma ExecChunkRow(db: Db, call: Call, k: string)
    requires k in Exec(db, call).chunks
    ensures var c := Exec(db, call).chunks[k];
      if k in db.chunks then c.id == db.chunks[k].id && c.parent == db.chunks[k].parent && c.index == db.chunks[k].index
      else call.NewChunk? && c == StoredChunk(call.chunk) && k == c.id
  {
  }

  lemma NamedStays(a: Db, b: Db, c: Chunk, d: Chunk)
    requires Grows(a, b) && NamedChunk(a, c) && d.id == c.id && d.parent == c.parent && d.index == c.index
    ensures NamedChunk(b, d)
  {
  }

  lemma ExecKeepsChunks(db: Db, call: Call)
    requires ChunksOk(db) && (call.NewChunk? ==> NamedChunk(db, StoredChunk(call.chunk)))
    ensures ChunksOk(Exec(db, call))
  {
    var after := Exec(db, call);
    ExecGrows(db, call);
    forall k | k in after.chunks
      ensures after.chunks[k].id == k && NamedChunk(after, after.chunks[k])
    {
      ExecChunkRow(db, call, k);
      NamedStays(db, after, if k in db.chunks then db.chunks[k] else after.chunks[k], after.chunks[k]);
    }
  }

  lemma GrowsKeepsChunks(a: Db, b: Db)
    requires Grows(a, b) && a.chunks == b.chunks && ChunksOk(a)
    ensures ChunksOk(b)
  {
    forall k | k in b.chunks
      ensures b.chunks[k].id == k && NamedChunk(b, b.chunks[k])
    {
      assert NamedChunk(a, a.chunks[k]);
    }
  }

  lemma GrowsKeepsThreads(a: Db, b: Db, s: Machine)
    requires Grows(a, b) && SchedulerOk(a, s.scheduler) && SweeperOk(a, s.sweeper, s.rescheduled)
    ensures SchedulerOk(b, s.scheduler) && SweeperOk(b, s.sweeper, s.rescheduled)
  {
    if s.scheduler.Working? {
      forall i | 0 <= i < |s.scheduler.todo|
        ensures ScheduleCallOk(b, s.scheduler.todo[i])
      {
        assert ScheduleCallOk(a, s.scheduler.todo[i]);
      }
    }
  }

  lemma {:induction false} GangCallsOk(db: Db, t: Task, gang: seq<Node>)
    requires t.id in db.tasks
    ensures CallsOk(db, GangCalls(t, gang))
  {
    if gang != [] {
      var r := |gang| - 1;
      GangCallsOk(db, t, gang[..r]);
      assert StoredChunk(GangChunk(t, r, gang[r])).id == ChunkId("chunk", t.id, r) && LegalPrefix("chunk");
      assert NamedChunk(db, StoredChunk(GangChunk(t, r, gang[r])));
    }
  }

  lemma SplitCallsOk(db: Db, t: Task, nodes: seq<Node>, w: World)
    requires t.id in db.tasks && IsSplit(t) && SplitPlan(t, w).Success?
    ensures CallsOk(db, ChunkCalls(SplitPlan(t, w).value))
  {
    var chunks := SplitPlan(t, w).value;
    forall i | 0 <= i < |chunks|
      ensures ScheduleCallOk(db, NewChunk(chunks[i]))
    {
      assert chunks[i] in NewChunks(t, nodes, w);
      NewChunkShape(t, nodes, w, chunks[i]);
      assert chunks[i] == PlannedChunk(t, i);
    }
  }

  /** Whatever the scheduler decides on an old snapshot is harmless for a split task. */
  lemma TaskCallsOk(db: Db, t: Task, nodes: seq<Node>, w: World)
    requires SnapshotOk(db, t)
    ensures CallsOk(db, TaskCalls(t, nodes, w))
  {
    if IsSplit(t) {
      if SplitPlan(t, w).Success? {
        SplitCallsOk(db, t, nodes, w);
      }
    } else if IsGang(t) {
      GangCallsOk(db, t, GangNodes(t, nodes));
    }
  }

  lemma SchedulerStepKept(s: Machine, step: SchedulerStep, s': Machine)
    requires FineInv(s) && SchedulerNext(s, step, s')
    ensures FineInv(s')
  {
    match step {
      case SchedulerNextTask(w) => TaskCallsOk(s.db, s.scheduler.tasks[0], s.scheduler.nodes, w);
      case SchedulerCall => SchedulerCallKept(s, s');
      case _ =>
    }
  }

  /** A call that keeps the tables keeps the rest. */
  lemma ExecKept(s: Machine, call: Call)
    requires FineInv(s) && CallOk(s.db, call) && (call.NewChunk? ==> NamedChunk(s.db, StoredChunk(call.chunk)))
    ensures FineInv(s.(db := Exec(s.db, call)))
  {
    ExecGrows(s.db, call);
    ExecKeepsTable(s.db, call, s.rescheduled);
    ExecKeepsChunks(s.db, call);
    GrowsKeepsThreads(s.db, Exec(s.db, call), s);
  }

  lemma SchedulerCallKept(s: Machine, s': Machine)
    requires FineInv(s) && SchedulerNext(s, SchedulerCall, s')
    ensures FineInv(s')
  {
    var call := s.scheduler.todo[0];
    assert ScheduleCallOk(s.db, call);
    ExecKept(s, call);
    var rest := s.scheduler.todo[1..];
    assert forall i | 0 <= i < |rest| :: rest[i] == s.scheduler.todo[i + 1];
  }

  lemma SweeperStepKept(s: Machine, step: SweeperStep, s': Machine)
    requires FineInv(s) && SweeperNext(s, step, s')
    ensures FineInv(s')
  {
    match step {
      case SweeperNextTask => SweeperNextTaskKept(s, s');
      case SweeperNextNode(now) =>
        GrowsKeepsThreads(s.db, s'.db, s);
        GrowsKeepsChunks(s.db, s'.db);
      case _ =>
    }
  }

  /** The heart of the bound: the sweeper compares the retry count it read, and no other thread
      reschedules, so the task it retries now was rescheduled less often than its budget. */
  lemma SweeperNextTaskKept(s: Machine, s': Machine)
    requires FineInv(s) && SweeperNext(s, SweeperNextTask, s')
    ensures FineInv(s')
  {
    var t := s.sweeper.tasks[0];
    var rest := s.sweeper.(tasks := s.sweeper.tasks[1..]);
    assert SnapshotOk(s.db, t) && s.rescheduled[t.id] <= t.retryCount;
    NextTaskOthers(s.db, s.sweeper, s.rescheduled);
    if TextOf(t.assignedNode) == s.sweeper.nodeId {
      var call := if t.retryCount < t.retryMax then Requeue(t.id) else Finish(t.id, 1);
      ExecGrows(s.db, call);
      ExecKeepsChunks(s.db, call);
      if t.retryCount < t.retryMax {
        RetryCounted(s.db, s.rescheduled, t.id);
        GrowsKeepsThreads(s.db, s'.db, s.(sweeper := rest, rescheduled := s'.rescheduled));
      } else {
        ExecKeepsTable(s.db, call, s.rescheduled);
        GrowsKeepsThreads(s.db, s'.db, s.(sweeper := rest));
      }
    }
  }

  /** Taking the first task off the sweeper's list, and retrying it, leaves the others as they were. */
  lemma NextTaskOthers(db: Db, p: Sweeper, rescheduled: multiset<string>)
    requires p.AtTasks? && p.tasks != [] && SweeperOk(db, p, rescheduled)
    ensures var rest := p.(tasks := p.tasks[1..]);
      SweeperOk(db, rest, rescheduled) && SweeperOk(db, rest, rescheduled + multiset{p.tasks[0].id})
  {
    assert forall i | 0 <= i < |p.tasks[1..]| :: p.tasks[1..][i] == p.tasks[i + 1];
  }

  lemma RetryCounted(db: Db, rescheduled: multiset<string>, id: string)
    requires TableOk(db, rescheduled) && id in db.tasks && rescheduled[id] < db.tasks[id].retryMax
    ensures TableOk(RequeueTask(db, id), rescheduled + multiset{id})
  {
  }

  lemma HandlerStartKept(s: Machine, step: RequestStep, s': Machine)
    requires FineInv(s) && RequestNext(s, step, s') && (step.CancelRead? || step.RetryRead? || step.PollTasks?)
    ensures FineInv(s')
  {
    assert |s'.handlers| == |s.handlers| + 1 && s'.handlers[..|s.handlers|] == s.handlers;
  }

  lemma HandlerReadKept(s: Machine, step: RequestStep, s': Machine)
    requires FineInv(s) && RequestNext(s, step, s') && (step.PollChunks? || step.CheckChunks?)
    ensures FineInv(s')
  {
  }

  lemma HandOutKept(s: Machine, h: nat, s': Machine)
    requires FineInv(s) && RequestNext(s, RequestStep.HandOut(h), s')
    ensures FineInv(s')
  {
    var p := s.handlers[h];
    ExecKept(s, if p.taskIds != [] then SetStatus(p.taskIds[0], Running) else MoveChunk(p.chunkIds[0], Running, 0));
  }

  lemma ReportKept(s: Machine, k: string, status: Status, exitCode: int, s': Machine)
    requires FineInv(s) && ReportRead(s, k, status, exitCode, s')
    ensures FineInv(s')
  {
    if IsChunkId(k).Some? {
      var call := if IsChunkId(k).value then MoveChunk(k, status, exitCode) else Finish(k, exitCode);
      assert s'.db == Exec(s.db, call);
      ExecKept(s, call);
    }
  }

  lemma HandlerCallKept(s: Machine, h: nat, s': Machine)
    requires FineInv(s) && RequestNext(s, HandlerCall(h), s')
    ensures FineInv(s')
  {
    assert HandlerOk(s.handlers[h]);
    ExecKept(s, s.handlers[h].todo[0]);
  }

  lemma SubmitKept(s: Machine, row: Task, s': Machine)
    requires FineInv(s) && RequestNext(s, RequestStep.Submit(row), s')
    ensures FineInv(s')
  {
    GrowsKeepsThreads(s.db, s'.db, s);
    GrowsKeepsChunks(s.db, s'.db);
  }

  lemma RequestStepKept(s: Machine, step: RequestStep, s': Machine)
    requires FineInv(s) && RequestNext(s, step, s')
    ensures FineInv(s')
  {
    match step {
      case Submit(row) => SubmitKept(s, row, s');
      case Report(k, status, exitCode) => ReportKept(s, k, status, exitCode, s');
      case HandlerCall(h) => HandlerCallKept(s, h, s');
      case HandOut(h) => HandOutKept(s, h, s');
      case PollChunks(_, _) => HandlerReadKept(s, step, s');
      case CheckChunks(_) => HandlerReadKept(s, step, s');
      case _ => HandlerStartKept(s, step, s');
    }
  }

  lemma FineInvKept(s: Machine, step: FineStep, s': Machine)
    requires FineInv(s) && FineNext(s, step, s')
    ensures FineInv(s')
  {
    match step {
      case ByScheduler(st) => SchedulerStepKept(s, st, s');
      case BySweeper(st) => SweeperStepKept(s, st, s');
      case ByRequest(st) => RequestStepKept(s, st, s');
      case NodesChange(_, _) =>
        GrowsKeepsThreads(s.db, s'.db, s);
        GrowsKeepsChunks(s.db, s'.db);
    }
  }

  lemma {:induction false} FineRunKeepsInv(run: seq<Machine>, steps: seq<FineStep>, i: nat)
    requires IsFineRun(run, steps) && i < |run|
    ensures FineInv(run[i])
  {
    if i > 0 {
      FineRunKeepsInv(run, steps, i - 1);
      assert FineStepAt(run, steps, i - 1);
      FineInvKept(run[i - 1], steps[i - 1], run[i]);
    }
  }

  /** Some run ends in s. */
  ghost predicate Reachable(s: Machine) {
    exists run, steps :: IsFineRun(run, steps) && run[|steps|] == s
  }

  lemma StartReachable(s: Machine)
    requires FineInit(s)
    ensures Reachable(s)
  {
    var steps: seq<FineStep> := [];
    assert IsFineRun([s], steps) && [s][|steps|] == s;
  }

  lemma NextReachable(s: Machine, step: FineStep, s': Machine)
    requires Reachable(s) && FineNext(s, step, s')
    ensures Reachable(s')
  {
    var run, steps :| IsFineRun(run, steps) && run[|steps|] == s;
    var run', steps' := run + [s'], steps + [step];
    forall i: nat | i < |steps'|
      ensures FineStepAt(run', steps', i)
    {
      assert i < |steps| ==> FineStepAt(run, steps, i);
    }
    assert IsFineRun(run', steps') && run'[|steps'|] == s';
  }

  /** Interleaved, in every reachable state: a submitted or queued task has no node, and a task with a
      split strategy has none either and is never pending for a node. */
  lemma NoNodeWhileWaiting(run: seq<Machine>, steps: seq<FineStep>, i: nat, id: string)
    requires IsFineRun(run, steps) && i < |run| && id in run[i].db.tasks
    ensures Waiting(run[i].db.tasks[id].status) || IsSplit(run[i].db.tasks[id]) ==>
      TextOf(run[i].db.tasks[id].assignedNode) == ""
    ensures IsSplit(run[i].db.tasks[id]) ==> forall nodeId :: id !in PendingTasks(run[i].db, nodeId)
  {
    FineRunKeepsInv(run, steps, i);
  }

  /** Interleaved, over a whole run: the sweeper never retries a task more than max(retry_max, 0)
      times, with cancels and manual retries falling anywhere between its read and its write. */
  lemma FineRescheduleBound(run: seq<Machine>, steps: seq<FineStep>, i: nat, id: string)
    requires IsFineRun(run, steps) && i < |run| && id in run[i].db.tasks
    ensures run[i].rescheduled[id] <= if run[i].db.tasks[id].retryMax > 0 then run[i].db.tasks[id].retryMax else 0
    ensures run[i].rescheduled[id] <= run[i].db.tasks[id].retryCount
  {
    FineRunKeepsInv(run, steps, i);
  }
}
