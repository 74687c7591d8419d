/** How often the interleaved controller hands an item to an agent: within its budget exactly as long as no
    poll reads it, while another poll of the same node still holds it, when the budget is used up. */
module HandOuts {
  import opened Records
  import opened ChunkIds
  import opened Placement
  import opened SplitPlans
  import opened TaskStore
  import opened Scheduling
  import opened Lifecycle
  import opened Interleaving

  /** What is handed out. */
  datatype Kind = OfTask | OfChunk

  // ---------- an item in the tables ----------

  predicate Known(db: Db, kind: Kind, id: string) {
    if kind.OfTask? then id in db.tasks else id in db.chunks
  }

  /** The scheduler may still pick it up. */
  predicate Awaiting(db: Db, kind: Kind, id: string) {
    Known(db, kind, id) && if kind.OfTask? then Waiting(db.tasks[id].status) else db.chunks[id].status == Queued
  }

  /** The node whose next poll finds it. */
  function Place(db: Db, kind: Kind, id: string): Option<string> {
    if !Known(db, kind, id) then None
    else if kind.OfTask? then
      if db.tasks[id].status == Scheduled then db.tasks[id].assignedNode else None
    else
      if db.chunks[id].status == Scheduled then db.chunks[id].assignedNode else None
  }

  /** How often it may be handed out: a task once and once more for each retry, a chunk once. */
  function Budget(db: Db, kind: Kind, id: string): int {
    if !Known(db, kind, id) then 0 else if kind.OfTask? then 1 + db.tasks[id].retryCount else 1
  }

  // ---------- an item in the hands of a thread ----------

  /** What a poll has read and not yet handed out. */
  function Listed(p: Handler, kind: Kind): seq<string> {
    match p
    case PollRead(_, taskIds) => if kind.OfTask? then taskIds else []
    case Polling(_, taskIds, chunkIds) => if kind.OfTask? then taskIds else chunkIds
    case _ => []
  }

  /** Handler p polls for node x and has something left to hand out, or to read. */
  predicate BusyFor(p: Handler, x: string) {
    match p
    case PollRead(nodeId, _) => nodeId == x
    case Polling(nodeId, taskIds, chunkIds) => nodeId == x && (taskIds != [] || chunkIds != [])
    case _ => false
  }

  /** Some poll of node x holds the item. */
  ghost predicate Taken(handlers: seq<Handler>, kind: Kind, x: string, id: string) {
    exists h :: 0 <= h < |handlers| && BusyFor(handlers[h], x) && id in Listed(handlers[h], kind)
  }

  function Count(ids: seq<string>, id: string): nat {
    multiset(ids)[id]
  }

  /** How often polls hold the item. */
  function InFlight(handlers: seq<Handler>, kind: Kind, id: string): nat {
    if handlers == [] then 0
    else InFlight(handlers[..|handlers| - 1], kind, id) + Count(Listed(handlers[|handlers| - 1], kind), id)
  }

  /** The call makes the item ready for a node. */
  predicate Schedules(call: Call, kind: Kind, id: string) {
    match call
    case Assign(k, _) => kind.OfTask? && k == id
    case SetStatus(k, status) => kind.OfTask? && k == id && status == Scheduled
    case PlaceChunk(k, _) => kind.OfChunk? && k == id
    case _ => false
  }

  function ScheduledBy(todo: seq<Call>, kind: Kind, id: string): nat {
    if todo == [] then 0 else One(Schedules(todo[0], kind, id)) + ScheduledBy(todo[1..], kind, id)
  }

  function TaskIds(rows: seq<Task>): (ids: seq<string>)
    ensures |ids| == |rows|
  {
    seq(|rows|, i requires 0 <= i < |rows| => rows[i].id)
  }

  function ChunkIdsOf(rows: seq<Chunk>): (ids: seq<string>)
    ensures |ids| == |rows|
  {
    seq(|rows|, i requires 0 <= i < |rows| => rows[i].id)
  }

  /** How often the scheduler may still make the item ready, having read it as waiting. */
  function Held(p: Interleaving.Scheduler, kind: Kind, id: string): nat {
    match p
    case Idle => 0
    case GotTasks(tasks) => if kind.OfTask? then Count(TaskIds(tasks), id) else 0
    case GotChunks(tasks, chunks) => Count(if kind.OfTask? then TaskIds(tasks) else ChunkIdsOf(chunks), id)
    case Working(todo, tasks, chunks, _) =>
      ScheduledBy(todo, kind, id) + Count(if kind.OfTask? then TaskIds(tasks) else ChunkIdsOf(chunks), id)
  }

  function Handed(s: Machine, kind: Kind): multiset<string> {
    if kind.OfTask? then s.handedTasks else s.handedChunks
  }

  // ---------- the invariant ----------

  /** It waits for a poll that has not read it yet. */
  ghost predicate Ready(db: Db, handlers: seq<Handler>, kind: Kind, id: string) {
    Place(db, kind, id).Some? && !Taken(handlers, kind, Place(db, kind, id).value, id)
  }

  /** Hand-outs that have happened, are under way, are ready, or may still be scheduled. */
  ghost function Weight(s: Machine, kind: Kind, id: string): nat {
    Handed(s, kind)[id] + InFlight(s.handlers, kind, id) + One(Ready(s.db, s.handlers, kind, id))
    + One(Awaiting(s.db, kind, id) || Held(s.scheduler, kind, id) > 0)
  }

  ghost predicate ItemOk(s: Machine, kind: Kind, id: string) {
    && Weight(s, kind, id) <= Budget(s.db, kind, id)
    && Held(s.scheduler, kind, id) <= 1
    && (Place(s.db, kind, id).Some? ==> Held(s.scheduler, kind, id) == 0)
  }

  /** Hand-outs that have happened or are under way. */
  function Spent(s: Machine, kind: Kind, id: string): nat {
    Handed(s, kind)[id] + InFlight(s.handlers, kind, id)
  }

  /** The step reads the item for a poll while another poll of the same node still holds it. */
  ghost predicate Rereads(s: Machine, step: FineStep, kind: Kind, id: string) {
    step.ByRequest? &&
    match step.request
    case PollTasks(x, taskIds) => kind == OfTask && id in taskIds && Taken(s.handlers, OfTask, x, id)
    case PollChunks(h, chunkIds) =>
      && kind == OfChunk && id in chunkIds
      && h < |s.handlers| && s.handlers[h].PollRead? && Taken(s.handlers, OfChunk, s.handlers[h].nodeId, id)
    case _ => false
  }

  /** It does so although the hand-outs made and under way use up the budget of the item. */
  ghost predicate Overdraws(s: Machine, step: FineStep, kind: Kind, id: string) {
    Rereads(s, step, kind, id) && Spent(s, kind, id) == Budget(s.db, kind, id)
  }

  /** Agents report only completed or failed. */
  predicate TrueReport(step: FineStep) {
    step.ByRequest? && step.request.Report? ==> Done(step.request.status)
  }

  /** The step reads nothing for a poll that another poll of the same node still holds. */
  ghost predicate NoReread(s: Machine, step: FineStep) {
    TrueReport(step) && forall kind, id :: !Rereads(s, step, kind, id)
  }

  // ---------- what handlers hold ----------

  lemma {:induction false} InFlightUpdated(handlers: seq<Handler>, h: nat, p: Handler, kind: Kind, id: string)
    requires h < |handlers|
    ensures InFlight(handlers[h := p], kind, id) + Count(Listed(handlers[h], kind), id) ==
            InFlight(handlers, kind, id) + Count(Listed(p, kind), id)
  {
    var n := |handlers| - 1;
    var after := handlers[h := p];
    if h < n {
      InFlightUpdated(handlers[..n], h, p, kind, id);
      assert after[..n] == handlers[..n][h := p];
    } else {
      assert after[..n] == handlers[..n];
    }
  }

  lemma InFlightAppended(handlers: seq<Handler>, p: Handler, kind: Kind, id: string)
    ensures InFlight(handlers + [p], kind, id) == InFlight(handlers, kind, id) + Count(Listed(p, kind), id)
  {
    assert (handlers + [p])[..|handlers|] == handlers;
  }

  lemma TakenAppended(handlers: seq<Handler>, p: Handler, kind: Kind, x: string, id: string)
    ensures Taken(handlers + [p], kind, x, id) <==>
      Taken(handlers, kind, x, id) || (BusyFor(p, x) && id in Listed(p, kind))
  {
    var after := handlers + [p];
    if h :| 0 <= h < |handlers| && BusyFor(handlers[h], x) && id in Listed(handlers[h], kind) {
      assert after[h] == handlers[h];
    }
    if BusyFor(p, x) && id in Listed(p, kind) {
      assert after[|handlers|] == p;
    }
  }

  /** Replacing a handler by one that holds at least as much of this item keeps it taken. */
  lemma TakenUpdated(handlers: seq<Handler>, h: nat, p: Handler, kind: Kind, x: string, id: string)
    requires h < |handlers| && Taken(handlers, kind, x, id)
    requires BusyFor(handlers[h], x) && id in Listed(handlers[h], kind) ==> BusyFor(p, x) && id in Listed(p, kind)
    ensures Taken(handlers[h := p], kind, x, id)
  {
    var g :| 0 <= g < |handlers| && BusyFor(handlers[g], x) && id in Listed(handlers[g], kind);
    var after := handlers[h := p];
    assert BusyFor(after[g], x) && id in Listed(after[g], kind);
  }

  lemma {:induction false} NothingScheduled(todo: seq<Call>, kind: Kind, id: string)
    requires forall i | 0 <= i < |todo| :: !Schedules(todo[i], kind, id)
    ensures ScheduledBy(todo, kind, id) == 0
  {
    if todo != [] {
      NothingScheduled(todo[1..], kind, id);
    }
  }

  /** Only the last call may make the item ready. */
  lemma {:induction false} ScheduledLast(todo: seq<Call>, call: Call, kind: Kind, id: string)
    requires forall i | 0 <= i < |todo| :: !Schedules(todo[i], kind, id)
    ensures ScheduledBy(todo + [call], kind, id) == One(Schedules(call, kind, id))
  {
    if todo == [] {
      assert (todo + [call])[1..] == [];
    } else {
      assert (todo + [call])[1..] == todo[1..] + [call];
      ScheduledLast(todo[1..], call, kind, id);
    }
  }

  lemma {:induction false} GangCallsSchedule(t: Task, gang: seq<Node>, kind: Kind, id: string)
    ensures forall i | 0 <= i < |GangCalls(t, gang)| :: !Schedules(GangCalls(t, gang)[i], kind, id)
  {
    if gang != [] {
      GangCallsSchedule(t, gang[..|gang| - 1], kind, id);
    }
  }

  lemma PlacementSchedules(t: Task, n: Node, kind: Kind, id: string)
    ensures ScheduledBy([Assign(t.id, n.row.id), SetMetrics(n.row.id, BusyMetrics(n))], kind, id) ==
      One(kind.OfTask? && id == t.id)
  {
    var todo := [Assign(t.id, n.row.id), SetMetrics(n.row.id, BusyMetrics(n))];
    NothingScheduled(todo[1..], kind, id);
  }

  /** One turn of the task loop makes at most its own task ready, and that once. */
  lemma TaskCallsSchedule(t: Task, nodes: seq<Node>, w: World, kind: Kind, id: string)
    ensures ScheduledBy(TaskCalls(t, nodes, w), kind, id) <= One(kind.OfTask? && id == t.id)
  {
    if IsSplit(t) {
      if SplitPlan(t, w).Success? {
        ScheduledLast(ChunkCalls(SplitPlan(t, w).value), SetStatus(t.id, Splitting), kind, id);
      }
    } else if IsGang(t) {
      GangCallsSchedule(t, GangNodes(t, nodes), kind, id);
      ScheduledLast(GangCalls(t, GangNodes(t, nodes)), SetStatus(t.id, Scheduled), kind, id);
    } else if BestNode(t, nodes).Some? {
      PlacementSchedules(t, BestNode(t, nodes).value, kind, id);
    }
  }

  // ---------- what calls do to an item ----------

  /** The item's row offers no more than before, but for what its budget grows; or it is new. */
  predicate Calm(a: Db, b: Db, kind: Kind, id: string) {
    if Known(a, kind, id) then
      && Budget(a, kind, id) <= Budget(b, kind, id)
      && (Place(b, kind, id).Some? ==> Place(b, kind, id) == Place(a, kind, id))
      && (Awaiting(b, kind, id) && !Awaiting(a, kind, id) ==> Budget(a, kind, id) < Budget(b, kind, id))
    else
      Known(b, kind, id) ==> 1 <= Budget(b, kind, id)
  }

  lemma CallsAreCalm(db: Db, call: Call, kind: Kind, id: string)
    requires !Schedules(call, kind, id)
    requires call.SetStatus? ==> !Waiting(call.status)
    requires call.MoveChunk? ==> Done(call.status) || call.status == Running
    ensures Calm(db, Exec(db, call), kind, id)
  {
    if kind == OfTask { CalmForTask(db, call, id); } else { CalmForChunk(db, call, id); }
  }

  lemma CalmForTask(db: Db, call: Call, id: string)
    requires !Schedules(call, OfTask, id) && (call.SetStatus? ==> !Waiting(call.status))
    ensures Calm(db, Exec(db, call), OfTask, id)
  {
  }

  lemma CalmForChunk(db: Db, call: Call, id: string)
    requires !Schedules(call, OfChunk, id) && (call.MoveChunk? ==> Done(call.status) || call.status == Running)
    ensures Calm(db, Exec(db, call), OfChunk, id)
  {
  }

  /** While no thread hands on the item, a calm change keeps its weight within its budget. */
  lemma CalmKeepsItem(s: Machine, s': Machine, kind: Kind, id: string)
    requires ItemOk(s, kind, id) && Calm(s.db, s'.db, kind, id)
    requires Spent(s', kind, id) <= Spent(s, kind, id)
    requires Held(s'.scheduler, kind, id) <= Held(s.scheduler, kind, id)
    requires Place(s'.db, kind, id).Some? && Taken(s.handlers, kind, Place(s'.db, kind, id).value, id) ==>
      Taken(s'.handlers, kind, Place(s'.db, kind, id).value, id)
    ensures ItemOk(s', kind, id)
  {
    assert Awaiting(s'.db, kind, id) ==> Place(s'.db, kind, id) == None;
  }

  // ---------- the scheduler ----------

  /** Nothing but what the scheduler holds changes. */
  predicate OnlyScheduler(s: Machine, s': Machine) {
    s'.db == s.db && s'.handlers == s.handlers && s'.handedTasks == s.handedTasks && s'.handedChunks == s.handedChunks
  }

  lemma HeldShrinks(s: Machine, s': Machine, kind: Kind, id: string)
    requires ItemOk(s, kind, id) && OnlyScheduler(s, s') && Held(s'.scheduler, kind, id) <= Held(s.scheduler, kind, id)
    ensures ItemOk(s', kind, id)
  {
  }

  /** The scheduler reads items that are waiting, each once. */
  lemma HeldRead(s: Machine, s': Machine, kind: Kind, id: string)
    requires ItemOk(s, kind, id) && OnlyScheduler(s, s') && Held(s'.scheduler, kind, id) <= 1
    requires Held(s'.scheduler, kind, id) > 0 ==> Awaiting(s.db, kind, id)
    ensures ItemOk(s', kind, id)
  {
  }

  lemma {:induction false} DistinctCount(ids: seq<string>, id: string)
    requires forall i, j | 0 <= i < j < |ids| :: ids[i] != ids[j]
    ensures Count(ids, id) == One(id in ids)
  {
    if ids != [] {
      var n := |ids| - 1;
      DistinctCount(ids[..n], id);
      assert ids == ids[..n] + [ids[n]];
    }
  }

  lemma CountFirst(ids: seq<string>, id: string)
    requires ids != []
    ensures Count(ids, id) == One(ids[0] == id) + Count(ids[1..], id)
  {
    assert ids == [ids[0]] + ids[1..];
  }

  lemma TasksRead(s: Machine, tasks: seq<Task>, s': Machine, kind: Kind, id: string)
    requires ItemOk(s, kind, id) && SchedulerNext(s, SchedulerReadTasks(tasks), s')
    ensures ItemOk(s', kind, id)
  {
    DistinctCount(TaskIds(tasks), id);
    HeldRead(s, s', kind, id);
  }

  lemma ChunksRead(s: Machine, chunks: seq<Chunk>, s': Machine, kind: Kind, id: string)
    requires ItemOk(s, kind, id) && SchedulerNext(s, SchedulerReadChunks(chunks), s')
    ensures ItemOk(s', kind, id)
  {
    if kind == OfChunk {
      DistinctCount(ChunkIdsOf(chunks), id);
      HeldRead(s, s', kind, id);
    } else {
      HeldShrinks(s, s', kind, id);
    }
  }

  lemma TaskTaken(s: Machine, w: World, s': Machine, kind: Kind, id: string)
    requires ItemOk(s, kind, id) && SchedulerNext(s, SchedulerNextTask(w), s')
    ensures ItemOk(s', kind, id)
  {
    var p := s.scheduler;
    CountFirst(TaskIds(p.tasks), id);
    assert TaskIds(p.tasks)[1..] == TaskIds(p.tasks[1..]);
    TaskCallsSchedule(p.tasks[0], p.nodes, w, kind, id);
    HeldShrinks(s, s', kind, id);
  }

  lemma PlacementOfOne(db: Db, c: Chunk, nodes: seq<Node>, kind: Kind, id: string)
    ensures ScheduledBy(ChunkPlacement(db, c, nodes), kind, id) <= One(kind.OfChunk? && id == c.id)
  {
    if ChunkPlacement(db, c, nodes) != [] {
      NothingScheduled(ChunkPlacement(db, c, nodes)[1..], kind, id);
    }
  }

  lemma ChunkTaken(s: Machine, s': Machine, kind: Kind, id: string)
    requires ItemOk(s, kind, id) && SchedulerNext(s, SchedulerNextChunk, s')
    ensures ItemOk(s', kind, id)
  {
    var p := s.scheduler;
    CountFirst(ChunkIdsOf(p.chunks), id);
    assert ChunkIdsOf(p.chunks)[1..] == ChunkIdsOf(p.chunks[1..]);
    PlacementOfOne(s.db, p.chunks[0], p.nodes, kind, id);
    HeldShrinks(s, s', kind, id);
  }

  /** The row a scheduling call leaves is not waiting any more and has the budget it had. */
  lemma ScheduledRow(db: Db, call: Call, kind: Kind, id: string)
    requires Schedules(call, kind, id) && Known(db, kind, id)
    ensures !Awaiting(Exec(db, call), kind, id) && Budget(Exec(db, call), kind, id) == Budget(db, kind, id)
  {
  }

  /** A call takes its item, if it makes one ready, out of the scheduler's hands. */
  lemma CallLeavesHands(s: Machine, s': Machine, kind: Kind, id: string)
    requires SchedulerNext(s, SchedulerCall, s')
    ensures Held(s.scheduler, kind, id) == One(Schedules(s.scheduler.todo[0], kind, id)) + Held(s'.scheduler, kind, id)
    ensures s'.db == Exec(s.db, s.scheduler.todo[0]) && s'.handlers == s.handlers && Handed(s', kind) == Handed(s, kind)
  {
  }

  lemma ScheduledItem(s: Machine, s': Machine, call: Call, kind: Kind, id: string)
    requires ItemOk(s, kind, id) && Schedules(call, kind, id)
    requires s'.db == Exec(s.db, call) && s'.handlers == s.handlers && Handed(s', kind) == Handed(s, kind)
    requires Held(s.scheduler, kind, id) == 1 + Held(s'.scheduler, kind, id)
    ensures ItemOk(s', kind, id)
  {
    assert Known(s.db, kind, id);
    ScheduledRow(s.db, call, kind, id);
  }

  lemma CallTaken(s: Machine, s': Machine, kind: Kind, id: string)
    requires FineInv(s) && ItemOk(s, kind, id) && SchedulerNext(s, SchedulerCall, s')
    ensures ItemOk(s', kind, id)
  {
    var call := s.scheduler.todo[0];
    CallLeavesHands(s, s', kind, id);
    if Schedules(call, kind, id) {
      ScheduledItem(s, s', call, kind, id);
    } else {
      assert ScheduleCallOk(s.db, call);
      CallsAreCalm(s.db, call, kind, id);
      CalmKeepsItem(s, s', kind, id);
    }
  }

  lemma SchedulerKeepsItem(s: Machine, step: SchedulerStep, s': Machine, kind: Kind, id: string)
    requires FineInv(s) && ItemOk(s, kind, id) && SchedulerNext(s, step, s')
    ensures ItemOk(s', kind, id)
  {
    match step {
      case SchedulerReadTasks(tasks) => TasksRead(s, tasks, s', kind, id);
      case SchedulerReadChunks(chunks) => ChunksRead(s, chunks, s', kind, id);
      case SchedulerNextTask(w) => TaskTaken(s, w, s', kind, id);
      case SchedulerNextChunk => ChunkTaken(s, s', kind, id);
      case SchedulerCall => CallTaken(s, s', kind, id);
      case SchedulerReadNodes(_) => HeldShrinks(s, s', kind, id);
      case SchedulerEnd => HeldShrinks(s, s', kind, id);
    }
  }

  // ---------- the sweeper ----------

  lemma SweeperCalm(s: Machine, step: SweeperStep, s': Machine, kind: Kind, id: string)
    requires SweeperNext(s, step, s')
    ensures Calm(s.db, s'.db, kind, id)
  {
    if step.SweeperNextTask? {
      CallsAreCalm(s.db, Requeue(s.sweeper.tasks[0].id), kind, id);
      CallsAreCalm(s.db, Finish(s.sweeper.tasks[0].id, 1), kind, id);
    }
  }

  lemma SweeperKeepsThreads(s: Machine, step: SweeperStep, s': Machine)
    requires SweeperNext(s, step, s')
    ensures s'.scheduler == s.scheduler && s'.handlers == s.handlers
    ensures s'.handedTasks == s.handedTasks && s'.handedChunks == s.handedChunks
  {
  }

  lemma SweeperKeepsItem(s: Machine, step: SweeperStep, s': Machine, kind: Kind, id: string)
    requires ItemOk(s, kind, id) && SweeperNext(s, step, s')
    ensures ItemOk(s', kind, id)
  {
    SweeperCalm(s, step, s', kind, id);
    SweeperKeepsThreads(s, step, s');
    CalmKeepsItem(s, s', kind, id);
  }

  // ---------- requests ----------

  /** The threads other than handler h stay as they are, and so do the hand-outs. */
  predicate OnlyHandlers(s: Machine, s': Machine) {
    s'.scheduler == s.scheduler && s'.handedTasks == s.handedTasks && s'.handedChunks == s.handedChunks
  }

  lemma HandlerAdded(s: Machine, p: Handler, s': Machine, kind: Kind, id: string)
    requires ItemOk(s, kind, id) && OnlyHandlers(s, s') && Calm(s.db, s'.db, kind, id)
    requires s'.handlers == s.handlers + [p] && Listed(p, kind) == []
    ensures ItemOk(s', kind, id)
  {
    InFlightAppended(s.handlers, p, kind, id);
    if Place(s'.db, kind, id).Some? {
      TakenAppended(s.handlers, p, kind, Place(s'.db, kind, id).value, id);
    }
    CalmKeepsItem(s, s', kind, id);
  }

  lemma HandlerReplaced(s: Machine, h: nat, p: Handler, s': Machine, kind: Kind, id: string)
    requires ItemOk(s, kind, id) && OnlyHandlers(s, s') && Calm(s.db, s'.db, kind, id)
    requires h < |s.handlers| && s'.handlers == s.handlers[h := p]
    requires Listed(p, kind) == Listed(s.handlers[h], kind)
    requires forall x :: BusyFor(s.handlers[h], x) && id in Listed(p, kind) ==> BusyFor(p, x)
    ensures ItemOk(s', kind, id)
  {
    InFlightUpdated(s.handlers, h, p, kind, id);
    if Place(s'.db, kind, id).Some? && Taken(s.handlers, kind, Place(s'.db, kind, id).value, id) {
      TakenUpdated(s.handlers, h, p, kind, Place(s'.db, kind, id).value, id);
    }
    CalmKeepsItem(s, s', kind, id);
  }

  /** An item read by a poll is in its hands now, and ready for no other read of the node. */
  lemma PolledItem(s: Machine, p: Handler, s': Machine, kind: Kind, id: string)
    requires ItemOk(s, kind, id) && s'.db == s.db && OnlyHandlers(s, s')
    requires InFlight(s'.handlers, kind, id) == InFlight(s.handlers, kind, id) + One(id in Listed(p, kind))
    requires id in Listed(p, kind) ==>
      && Place(s.db, kind, id).Some? && BusyFor(p, Place(s.db, kind, id).value)
      && (Taken(s.handlers, kind, Place(s.db, kind, id).value, id) ==> Spent(s, kind, id) < Budget(s.db, kind, id))
    requires forall x :: Taken(s.handlers, kind, x, id) || (BusyFor(p, x) && id in Listed(p, kind)) ==>
      Taken(s'.handlers, kind, x, id)
    ensures ItemOk(s', kind, id)
  {
  }

  lemma TasksPolled(s: Machine, x: string, taskIds: seq<string>, s': Machine, kind: Kind, id: string)
    requires ItemOk(s, kind, id) && RequestNext(s, PollTasks(x, taskIds), s')
    requires !Overdraws(s, ByRequest(PollTasks(x, taskIds)), kind, id)
    ensures ItemOk(s', kind, id)
  {
    var p := PollRead(x, taskIds);
    if kind == OfChunk {
      HandlerAdded(s, p, s', kind, id);
    } else {
      InFlightAppended(s.handlers, p, kind, id);
      forall y
        ensures Taken(s'.handlers, kind, y, id) <==>
          Taken(s.handlers, kind, y, id) || (BusyFor(p, y) && id in Listed(p, kind))
      {
        TakenAppended(s.handlers, p, kind, y, id);
      }
      DistinctCount(taskIds, id);
      SpentWithin(s, kind, id);
      PolledItem(s, p, s', kind, id);
    }
  }

  lemma SpentWithin(s: Machine, kind: Kind, id: string)
    requires ItemOk(s, kind, id)
    ensures Spent(s, kind, id) <= Budget(s.db, kind, id)
  {
  }

  lemma ChunksTaken(s: Machine, h: nat, chunkIds: seq<string>, s': Machine, id: string)
    requires RequestNext(s, PollChunks(h, chunkIds), s')
    ensures forall x ::
      Taken(s.handlers, OfChunk, x, id) || (BusyFor(s'.handlers[h], x) && id in chunkIds) ==>
        Taken(s'.handlers, OfChunk, x, id)
  {
    forall x | Taken(s.handlers, OfChunk, x, id)
      ensures Taken(s'.handlers, OfChunk, x, id)
    {
      TakenUpdated(s.handlers, h, s'.handlers[h], OfChunk, x, id);
    }
    assert Listed(s'.handlers[h], OfChunk) == chunkIds;
  }

  lemma ChunksPolled(s: Machine, h: nat, chunkIds: seq<string>, s': Machine, kind: Kind, id: string)
    requires ItemOk(s, kind, id) && RequestNext(s, PollChunks(h, chunkIds), s')
    requires !Overdraws(s, ByRequest(PollChunks(h, chunkIds)), kind, id)
    ensures ItemOk(s', kind, id)
  {
    var p, q := s.handlers[h], s'.handlers[h];
    if kind == OfTask {
      HandlerReplaced(s, h, q, s', kind, id);
    } else {
      InFlightUpdated(s.handlers, h, q, kind, id);
      DistinctCount(chunkIds, id);
      ChunksTaken(s, h, chunkIds, s', id);
      SpentWithin(s, kind, id);
      PolledItem(s, q, s', kind, id);
    }
  }

  /** The item handed out leaves the poll's hands. */
  lemma HandOutCounted(s: Machine, h: nat, s': Machine, kind: Kind, id: string)
    requires RequestNext(s, RequestStep.HandOut(h), s')
    ensures Spent(s', kind, id) == Spent(s, kind, id)
  {
    InFlightUpdated(s.handlers, h, s'.handlers[h], kind, id);
    FirstHandedOut(s, h, s', kind, id);
  }

  lemma FirstHandedOut(s: Machine, h: nat, s': Machine, kind: Kind, id: string)
    requires RequestNext(s, RequestStep.HandOut(h), s')
    ensures Handed(s', kind)[id] + Count(Listed(s'.handlers[h], kind), id) ==
      Handed(s, kind)[id] + Count(Listed(s.handlers[h], kind), id)
  {
    var p := s.handlers[h];
    if p.taskIds != [] { CountFirst(p.taskIds, id); } else { CountFirst(p.chunkIds, id); }
  }

  lemma HandOutCalm(s: Machine, h: nat, s': Machine, kind: Kind, id: string)
    requires RequestNext(s, RequestStep.HandOut(h), s')
    ensures Calm(s.db, s'.db, kind, id)
  {
    var p := s.handlers[h];
    var call := if p.taskIds != [] then SetStatus(p.taskIds[0], Running) else MoveChunk(p.chunkIds[0], Running, 0);
    CallsAreCalm(s.db, call, kind, id);
  }

  /** And its row is running. */
  lemma HandedItem(s: Machine, h: nat, s': Machine, kind: Kind, id: string)
    requires ItemOk(s, kind, id) && RequestNext(s, RequestStep.HandOut(h), s')
    ensures ItemOk(s', kind, id)
  {
    HandOutCounted(s, h, s', kind, id);
    HandOutCalm(s, h, s', kind, id);
    if Place(s'.db, kind, id).Some? && Taken(s.handlers, kind, Place(s'.db, kind, id).value, id) {
      StillTaken(s, h, s', kind, Place(s'.db, kind, id).value, id);
    }
    assert s'.scheduler == s.scheduler;
    CalmKeepsItem(s, s', kind, id);
  }

  /** A hand-out leaves the other items in the poll's hands. */
  lemma StillTaken(s: Machine, h: nat, s': Machine, kind: Kind, x: string, id: string)
    requires RequestNext(s, RequestStep.HandOut(h), s') && Taken(s.handlers, kind, x, id)
    requires Place(s'.db, kind, id).Some?
    ensures Taken(s'.handlers, kind, x, id)
  {
    var p, q := s.handlers[h], s'.handlers[h];
    assert p.taskIds != [] ==> p.taskIds == [p.taskIds[0]] + p.taskIds[1..];
    assert p.chunkIds != [] ==> p.chunkIds == [p.chunkIds[0]] + p.chunkIds[1..];
    TakenUpdated(s.handlers, h, q, kind, x, id);
  }

  lemma ReportKeepsItem(s: Machine, k: string, status: Status, exitCode: int, s': Machine, kind: Kind, id: string)
    requires ItemOk(s, kind, id) && ReportRead(s, k, status, exitCode, s') && Done(status)
    ensures ItemOk(s', kind, id)
  {
    match IsChunkId(k) {
      case None =>
      case Some(true) => ChunkReportKeepsItem(s, k, status, exitCode, s', kind, id);
      case Some(false) =>
        CallsAreCalm(s.db, Finish(k, exitCode), kind, id);
        CalmKeepsItem(s, s', kind, id);
    }
  }

  lemma ChunkReportKeepsItem(s: Machine, k: string, status: Status, exitCode: int, s': Machine, kind: Kind, id: string)
    requires ItemOk(s, kind, id) && ReportRead(s, k, status, exitCode, s') && Done(status) && IsChunkId(k) == Some(true)
    ensures ItemOk(s', kind, id)
  {
    CallsAreCalm(s.db, MoveChunk(k, status, exitCode), kind, id);
    match ParentOf(k) {
      case Some(parent) => HandlerAdded(s, ChunkReported(parent), s', kind, id);
      case None =>
        assert s'.handlers == s.handlers;
        CalmKeepsItem(s, s', kind, id);
    }
  }

  lemma HandlerCallKeepsItem(s: Machine, h: nat, s': Machine, kind: Kind, id: string)
    requires FineInv(s) && ItemOk(s, kind, id) && RequestNext(s, HandlerCall(h), s')
    ensures ItemOk(s', kind, id)
  {
    assert HandlerOk(s.handlers[h]);
    CallsAreCalm(s.db, s.handlers[h].todo[0], kind, id);
    HandlerReplaced(s, h, s'.handlers[h], s', kind, id);
  }

  lemma RequestKeepsItem(s: Machine, step: RequestStep, s': Machine, kind: Kind, id: string)
    requires FineInv(s) && ItemOk(s, kind, id) && RequestNext(s, step, s')
    requires !Overdraws(s, ByRequest(step), kind, id) && TrueReport(ByRequest(step))
    ensures ItemOk(s', kind, id)
  {
    match step {
      case PollTasks(x, taskIds) => TasksPolled(s, x, taskIds, s', kind, id);
      case PollChunks(h, chunkIds) => ChunksPolled(s, h, chunkIds, s', kind, id);
      case _ => OtherRequestKeepsItem(s, step, s', kind, id);
    }
  }

  lemma OtherRequestKeepsItem(s: Machine, step: RequestStep, s': Machine, kind: Kind, id: string)
    requires FineInv(s) && ItemOk(s, kind, id) && RequestNext(s, step, s') && TrueReport(ByRequest(step))
    requires !step.PollTasks? && !step.PollChunks?
    ensures ItemOk(s', kind, id)
  {
    match step {
      case HandOut(h) => HandedItem(s, h, s', kind, id);
      case Report(k, status, exitCode) => ReportKeepsItem(s, k, status, exitCode, s', kind, id);
      case CheckChunks(h) => HandlerReplaced(s, h, s'.handlers[h], s', kind, id);
      case HandlerCall(h) => HandlerCallKeepsItem(s, h, s', kind, id);
      case _ => StartKeepsItem(s, step, s', kind, id);
    }
  }

  lemma StartKeepsItem(s: Machine, step: RequestStep, s': Machine, kind: Kind, id: string)
    requires ItemOk(s, kind, id) && RequestNext(s, step, s') && (step.Submit? || step.CancelRead? || step.RetryRead?)
    ensures ItemOk(s', kind, id)
  {
    if step.Submit? {
      CalmKeepsItem(s, s', kind, id);
    } else {
      HandlerAdded(s, s'.handlers[|s.handlers|], s', kind, id);
    }
  }

  lemma StepKeepsItem(s: Machine, step: FineStep, s': Machine, kind: Kind, id: string)
    requires FineInv(s) && ItemOk(s, kind, id) && FineNext(s, step, s')
    requires !Overdraws(s, step, kind, id) && TrueReport(step)
    ensures ItemOk(s', kind, id)
  {
    match step {
      case ByScheduler(st) => SchedulerKeepsItem(s, st, s', kind, id);
      case BySweeper(st) => SweeperKeepsItem(s, st, s', kind, id);
      case ByRequest(st) => RequestKeepsItem(s, st, s', kind, id);
      case NodesChange(_, _) => CalmKeepsItem(s, s', kind, id);
    }
  }

  // ---------- the bound ----------

  /** Step j of the run overdraws, or just rereads, the item. */
  ghost predicate OverdrawnAt(run: seq<Machine>, steps: seq<FineStep>, j: nat, kind: Kind, id: string)
    requires j < |steps| && |run| == |steps| + 1
  {
    Overdraws(run[j], steps[j], kind, id)
  }

  ghost predicate RereadAt(run: seq<Machine>, steps: seq<FineStep>, j: nat, kind: Kind, id: string)
    requires j < |steps| && |run| == |steps| + 1
  {
    Rereads(run[j], steps[j], kind, id)
  }

  predicate TrueReports(steps: seq<FineStep>, i: nat)
    requires i <= |steps|
  {
    forall j | 0 <= j < i :: TrueReport(steps[j])
  }

  lemma {:induction false} RunKeepsItem(run: seq<Machine>, steps: seq<FineStep>, i: nat, kind: Kind, id: string)
    requires IsFineRun(run, steps) && i < |run| && TrueReports(steps, i)
    requires forall j: nat | j < i :: !OverdrawnAt(run, steps, j, kind, id)
    ensures ItemOk(run[i], kind, id)
  {
    if i == 0 {
      ItemOkAtStart(run[0], kind, id);
    } else {
      RunKeepsItem(run, steps, i - 1, kind, id);
      ItemInRun(run, steps, i - 1, kind, id);
    }
  }

  lemma ItemOkAtStart(s: Machine, kind: Kind, id: string)
    requires FineInit(s)
    ensures ItemOk(s, kind, id)
  {
  }

  lemma ItemInRun(run: seq<Machine>, steps: seq<FineStep>, i: nat, kind: Kind, id: string)
    requires IsFineRun(run, steps) && i < |steps| && ItemOk(run[i], kind, id)
    requires TrueReport(steps[i]) && !OverdrawnAt(run, steps, i, kind, id)
    ensures ItemOk(run[i + 1], kind, id)
  {
    FineRunKeepsInv(run, steps, i);
    assert FineStepAt(run, steps, i);
    StepKeepsItem(run[i], steps[i], run[i + 1], kind, id);
  }

  /** Interleaved, in every run in which no poll reads an item that another poll of the same node still
      holds: a task is handed out at most retry_count + 1 times, and a chunk at most once. */
  lemma FineHandOutBound(run: seq<Machine>, steps: seq<FineStep>, i: nat, id: string)
    requires IsFineRun(run, steps) && i < |run|
    requires forall j | 0 <= j < i :: NoReread(run[j], steps[j])
    ensures id in run[i].db.tasks ==> run[i].handedTasks[id] <= run[i].db.tasks[id].retryCount + 1
    ensures run[i].handedChunks[id] <= 1
    ensures id in run[i].handedTasks ==> id in run[i].db.tasks
    ensures id in run[i].handedChunks ==> id in run[i].db.chunks
  {
    forall j: nat, kind | j < i
      ensures !OverdrawnAt(run, steps, j, kind, id)
    {
      assert NoReread(run[j], steps[j]);
    }
    RunKeepsItem(run, steps, i, OfTask, id);
    RunKeepsItem(run, steps, i, OfChunk, id);
  }

  // ---------- exactly when the bound fails ----------

  lemma ReadRaisesSpent(s: Machine, step: RequestStep, s': Machine, kind: Kind, id: string)
    requires RequestNext(s, step, s') && (step.PollTasks? || step.PollChunks?)
    ensures Spent(s', kind, id) >= Spent(s, kind, id)
    ensures Rereads(s, ByRequest(step), kind, id) ==> Spent(s', kind, id) == Spent(s, kind, id) + 1 && s'.db == s.db
  {
    match step {
      case PollTasks(x, taskIds) =>
        InFlightAppended(s.handlers, PollRead(x, taskIds), kind, id);
        DistinctCount(taskIds, id);
      case PollChunks(h, chunkIds) =>
        InFlightUpdated(s.handlers, h, s'.handlers[h], kind, id);
        DistinctCount(chunkIds, id);
    }
  }

  /** Hand-outs made and under way are never taken back. */
  lemma SpentGrows(s: Machine, step: FineStep, s': Machine, kind: Kind, id: string)
    requires FineNext(s, step, s')
    ensures Spent(s', kind, id) >= Spent(s, kind, id)
  {
    match step {
      case ByScheduler(st) => SchedulerKeepsHands(s, st, s');
      case BySweeper(st) => SweeperKeepsThreads(s, st, s');
      case ByRequest(st) => RequestGrowsSpent(s, st, s', kind, id);
      case NodesChange(_, _) =>
    }
  }

  lemma SchedulerKeepsHands(s: Machine, step: SchedulerStep, s': Machine)
    requires SchedulerNext(s, step, s')
    ensures s'.handlers == s.handlers && s'.handedTasks == s.handedTasks && s'.handedChunks == s.handedChunks
  {
  }

  lemma RequestGrowsSpent(s: Machine, step: RequestStep, s': Machine, kind: Kind, id: string)
    requires RequestNext(s, step, s')
    ensures Spent(s', kind, id) >= Spent(s, kind, id)
  {
    match step {
      case PollTasks(_, _) => ReadRaisesSpent(s, step, s', kind, id);
      case PollChunks(_, _) => ReadRaisesSpent(s, step, s', kind, id);
      case HandOut(h) => HandOutCounted(s, h, s', kind, id);
      case Report(k, status, exitCode) => ReportKeepsSpent(s, k, status, exitCode, s', kind, id);
      case CheckChunks(h) => InFlightUpdated(s.handlers, h, s'.handlers[h], kind, id);
      case HandlerCall(h) => InFlightUpdated(s.handlers, h, s'.handlers[h], kind, id);
      case _ => StartKeepsSpent(s, step, s', kind, id);
    }
  }

  lemma StartKeepsSpent(s: Machine, step: RequestStep, s': Machine, kind: Kind, id: string)
    requires RequestNext(s, step, s') && (step.Submit? || step.CancelRead? || step.RetryRead?)
    ensures Spent(s', kind, id) == Spent(s, kind, id)
  {
    match step {
      case Submit(_) =>
      case CancelRead(k) => AppendKeepsSpent(s, Calls([SetStatus(k, Cancelled)]), s', kind, id);
      case RetryRead(k) => AppendKeepsSpent(s, Calls([Requeue(k)]), s', kind, id);
    }
  }

  lemma AppendKeepsSpent(s: Machine, p: Handler, s': Machine, kind: Kind, id: string)
    requires s' == s.(handlers := s.handlers + [p]) && p.Calls?
    ensures Spent(s', kind, id) == Spent(s, kind, id)
  {
    InFlightAppended(s.handlers, p, kind, id);
  }

  lemma ReportKeepsSpent(s: Machine, k: string, status: Status, exitCode: int, s': Machine, kind: Kind, id: string)
    requires ReportRead(s, k, status, exitCode, s')
    ensures Spent(s', kind, id) == Spent(s, kind, id)
  {
    if IsChunkId(k) == Some(true) && ParentOf(k).Some? {
      InFlightAppended(s.handlers, ChunkReported(ParentOf(k).value), kind, id);
    } else {
      assert s'.handlers == s.handlers;
    }
  }

  lemma {:induction false} TakenIsInFlight(handlers: seq<Handler>, kind: Kind, x: string, id: string)
    requires Taken(handlers, kind, x, id)
    ensures InFlight(handlers, kind, id) >= 1
  {
    var n := |handlers| - 1;
    if id !in Listed(handlers[n], kind) {
      var h :| 0 <= h < |handlers| && BusyFor(handlers[h], x) && id in Listed(handlers[h], kind);
      assert handlers[..n][h] == handlers[h];
      TakenIsInFlight(handlers[..n], kind, x, id);
    }
  }

  /** Interleaved, in every run, for tasks and for chunks: the hand-outs of an item, made and under way,
      stay within its budget at all times if and only if no poll reads it, while another poll of the node
      holds it, when the budget is used up. */
  lemma HandOutsExactly(run: seq<Machine>, steps: seq<FineStep>, i: nat, kind: Kind, id: string)
    requires IsFineRun(run, steps) && i < |run| && TrueReports(steps, i)
    ensures (forall j | 0 <= j <= i :: Spent(run[j], kind, id) <= Budget(run[j].db, kind, id)) <==>
            (forall j: nat | j < i :: !OverdrawnAt(run, steps, j, kind, id))
  {
    if j: nat :| j < i && OverdrawnAt(run, steps, j, kind, id) {
      OverdrawnAfter(run, steps, j, kind, id);
    } else {
      forall j | 0 <= j <= i
        ensures Spent(run[j], kind, id) <= Budget(run[j].db, kind, id)
      {
        RunKeepsItem(run, steps, j, kind, id);
        SpentWithin(run[j], kind, id);
      }
    }
  }

  lemma OverdrawnAfter(run: seq<Machine>, steps: seq<FineStep>, j: nat, kind: Kind, id: string)
    requires IsFineRun(run, steps) && j < |steps| && OverdrawnAt(run, steps, j, kind, id)
    ensures Spent(run[j + 1], kind, id) > Budget(run[j + 1].db, kind, id)
  {
    assert FineStepAt(run, steps, j);
    ReadRaisesSpent(run[j], steps[j].request, run[j + 1], kind, id);
  }

  lemma {:induction false} Nondecreasing(v: seq<nat>, i: nat, j: nat)
    requires i <= j < |v| && forall k | 0 < k < |v| :: v[k - 1] <= v[k]
    ensures v[i] <= v[j]
    decreases j
  {
    if i < j {
      Nondecreasing(v, i, j - 1);
    }
  }

  function SpentOver(run: seq<Machine>, kind: Kind, id: string): (v: seq<nat>)
    ensures |v| == |run| && forall i | 0 <= i < |v| :: v[i] == Spent(run[i], kind, id)
  {
    seq(|run|, i requires 0 <= i < |run| => Spent(run[i], kind, id))
  }

  lemma SpentGrowsInRun(run: seq<Machine>, steps: seq<FineStep>, i: nat, j: nat, kind: Kind, id: string)
    requires IsFineRun(run, steps) && i <= j < |run|
    ensures Spent(run[j], kind, id) >= Spent(run[i], kind, id)
  {
    SpentNeverShrinks(run, steps, kind, id);
    Nondecreasing(SpentOver(run, kind, id), i, j);
  }

  lemma SpentNeverShrinks(run: seq<Machine>, steps: seq<FineStep>, kind: Kind, id: string)
    requires IsFineRun(run, steps)
    ensures var v := SpentOver(run, kind, id); forall k | 0 < k < |v| :: v[k - 1] <= v[k]
  {
    var v := SpentOver(run, kind, id);
    forall k | 0 < k < |v|
      ensures v[k - 1] <= v[k]
    {
      SpentGrowsAt(run, steps, k - 1, kind, id);
    }
  }

  lemma SpentGrowsAt(run: seq<Machine>, steps: seq<FineStep>, i: nat, kind: Kind, id: string)
    requires IsFineRun(run, steps) && i < |steps|
    ensures Spent(run[i + 1], kind, id) >= Spent(run[i], kind, id)
  {
    assert FineStepAt(run, steps, i);
    SpentGrows(run[i], steps[i], run[i + 1], kind, id);
  }

  ghost predicate RereadBefore(run: seq<Machine>, steps: seq<FineStep>, i: nat, k: string)
    requires i < |run| == |steps| + 1
  {
    exists j: nat :: j < i && RereadAt(run, steps, j, OfChunk, k)
  }

  /** For a chunk the budget never grows: its hand-outs, made and under way, exceed one if and only if
      some poll has read it while another poll of the node held it. So when no poll holds it, it has been
      handed out at most once if and only if that never happened. */
  lemma ChunkHandOutsExactly(run: seq<Machine>, steps: seq<FineStep>, i: nat, k: string)
    requires IsFineRun(run, steps) && i < |run| && TrueReports(steps, i)
    ensures run[i].handedChunks[k] + InFlight(run[i].handlers, OfChunk, k) <= 1 <==> !RereadBefore(run, steps, i, k)
    ensures InFlight(run[i].handlers, OfChunk, k) == 0 ==>
      (run[i].handedChunks[k] <= 1 <==> !RereadBefore(run, steps, i, k))
  {
    if RereadBefore(run, steps, i, k) {
      RereadSpendsMore(run, steps, i, k);
    } else {
      NoRereadSpendsOne(run, steps, i, k);
    }
  }

  lemma NoRereadSpendsOne(run: seq<Machine>, steps: seq<FineStep>, i: nat, k: string)
    requires IsFineRun(run, steps) && i < |run| && !RereadBefore(run, steps, i, k) && TrueReports(steps, i)
    ensures Spent(run[i], OfChunk, k) <= 1
  {
    forall j: nat | j < i
      ensures !OverdrawnAt(run, steps, j, OfChunk, k)
    {
      assert !RereadAt(run, steps, j, OfChunk, k);
    }
    RunKeepsItem(run, steps, i, OfChunk, k);
    SpentWithin(run[i], OfChunk, k);
  }

  lemma RereadSpendsMore(run: seq<Machine>, steps: seq<FineStep>, i: nat, k: string)
    requires IsFineRun(run, steps) && i < |run| && RereadBefore(run, steps, i, k)
    ensures Spent(run[i], OfChunk, k) >= 2
  {
    var j: nat :| j < i && RereadAt(run, steps, j, OfChunk, k);
    RereadSpendsTwo(run, steps, j, k);
    SpentGrowsInRun(run, steps, j + 1, i, OfChunk, k);
  }

  lemma RereadSpendsTwo(run: seq<Machine>, steps: seq<FineStep>, j: nat, k: string)
    requires IsFineRun(run, steps) && j < |steps| && RereadAt(run, steps, j, OfChunk, k)
    ensures Spent(run[j + 1], OfChunk, k) >= 2
  {
    assert FineStepAt(run, steps, j);
    ReadRaisesSpent(run[j], steps[j].request, run[j + 1], OfChunk, k);
    TakenIsInFlight(run[j].handlers, OfChunk, run[j].handlers[steps[j].request.h].nodeId, k);
  }

  // ---------- polls that do not overlap ----------

  /** No poll of a node starts while another poll of it has something left to read or to hand out. */
  ghost predicate NoOverlap(s: Machine, step: FineStep) {
    step.ByRequest? ==>
      match step.request
      case PollTasks(x, _) => forall h | 0 <= h < |s.handlers| :: !BusyFor(s.handlers[h], x)
      case Report(_, status, _) => Done(status)
      case _ => true
  }

  ghost predicate OnePollEach(handlers: seq<Handler>) {
    forall g, h, x | 0 <= g < h < |handlers| && BusyFor(handlers[g], x) :: !BusyFor(handlers[h], x)
  }

  lemma OnePollReplaced(handlers: seq<Handler>, h: nat, p: Handler)
    requires OnePollEach(handlers) && h < |handlers|
    requires forall x :: BusyFor(p, x) ==> BusyFor(handlers[h], x)
    ensures OnePollEach(handlers[h := p])
  {
  }

  lemma OnePollAppended(handlers: seq<Handler>, p: Handler)
    requires OnePollEach(handlers)
    requires forall h, x | 0 <= h < |handlers| && BusyFor(handlers[h], x) :: !BusyFor(p, x)
    ensures OnePollEach(handlers + [p])
  {
  }

  lemma OnePollKept(s: Machine, step: FineStep, s': Machine)
    requires OnePollEach(s.handlers) && FineNext(s, step, s') && NoOverlap(s, step)
    ensures OnePollEach(s'.handlers)
  {
    if step.ByRequest? {
      match step.request {
        case PollTasks(x, taskIds) => OnePollAppended(s.handlers, PollRead(x, taskIds));
        case CancelRead(k) => OnePollAppended(s.handlers, Calls([SetStatus(k, Cancelled)]));
        case RetryRead(k) => OnePollAppended(s.handlers, Calls([Requeue(k)]));
        case Report(k, _, _) => OnePollReport(s, k, step.request, s');
        case Submit(_) =>
        case PollChunks(h, _) => OnePollReplaced(s.handlers, h, s'.handlers[h]);
        case HandOut(h) => OnePollReplaced(s.handlers, h, s'.handlers[h]);
        case CheckChunks(h) => OnePollReplaced(s.handlers, h, s'.handlers[h]);
        case HandlerCall(h) => OnePollReplaced(s.handlers, h, s'.handlers[h]);
      }
    }
  }

  lemma OnePollReport(s: Machine, k: string, step: RequestStep, s': Machine)
    requires OnePollEach(s.handlers) && step.Report? && step.itemId == k && RequestNext(s, step, s')
    ensures OnePollEach(s'.handlers)
  {
    if IsChunkId(k) == Some(true) && ParentOf(k).Some? {
      OnePollAppended(s.handlers, ChunkReported(ParentOf(k).value));
    } else {
      assert s'.handlers == s.handlers;
    }
  }

  lemma NoOverlapNoReread(s: Machine, step: FineStep)
    requires OnePollEach(s.handlers) && NoOverlap(s, step)
    ensures NoReread(s, step)
  {
  }

  lemma {:induction false} SeparatePolls(run: seq<Machine>, steps: seq<FineStep>, i: nat)
    requires IsFineRun(run, steps) && i < |run|
    requires forall j | 0 <= j < i :: NoOverlap(run[j], steps[j])
    ensures OnePollEach(run[i].handlers)
    ensures forall j | 0 <= j < i :: NoReread(run[j], steps[j])
  {
    if i > 0 {
      SeparatePolls(run, steps, i - 1);
      assert FineStepAt(run, steps, i - 1);
      OnePollKept(run[i - 1], steps[i - 1], run[i]);
      NoOverlapNoReread(run[i - 1], steps[i - 1]);
    }
  }

  /** In particular the bounds hold in every run in which polls of the same node do not overlap. */
  lemma SeparatePollsBound(run: seq<Machine>, steps: seq<FineStep>, i: nat, id: string)
    requires IsFineRun(run, steps) && i < |run|
    requires forall j | 0 <= j < i :: NoOverlap(run[j], steps[j])
    ensures id in run[i].db.tasks ==> run[i].handedTasks[id] <= run[i].db.tasks[id].retryCount + 1
    ensures run[i].handedChunks[id] <= 1
  {
    SeparatePolls(run, steps, i);
    FineHandOutBound(run, steps, i, id);
  }

  /** The read of a poll promises one hand-out more than was due exactly when another poll of the node
      still holds the task it reads. */
  lemma RereadRaisesWeightExactly(s: Machine, x: string, taskIds: seq<string>, s': Machine, id: string)
    requires RequestNext(s, PollTasks(x, taskIds), s')
    ensures Weight(s', OfTask, id) == Weight(s, OfTask, id) + One(id in taskIds && Taken(s.handlers, OfTask, x, id))
  {
    var p := PollRead(x, taskIds);
    InFlightAppended(s.handlers, p, OfTask, id);
    DistinctCount(taskIds, id);
    if Place(s.db, OfTask, id).Some? {
      TakenAppended(s.handlers, p, OfTask, Place(s.db, OfTask, id).value, id);
    }
  }
}
