/** The store: tables as maps, statements as their text says, and the class whose methods run them
    (controller/state/store.go:433-943). */
module TaskStore {
  import opened Records
  import opened Text
  import opened ChunkIds

  datatype Db = Db(
    tasks: map<string, Task>,
    chunks: map<string, Chunk>,
    nodes: map<string, NodeRow>,
    metrics: map<string, Metrics>)

  /** Every row is stored under its primary key. */
  ghost predicate Keyed(db: Db) {
    && (forall id | id in db.tasks :: db.tasks[id].id == id)
    && (forall id | id in db.chunks :: db.chunks[id].id == id)
    && (forall id | id in db.nodes :: db.nodes[id].id == id)
  }

  // ---------- what a statement does to the row it matches ----------

  function Assigned(t: Task, nodeId: string): Task {
    t.(assignedNode := Some(nodeId), status := Scheduled)
  }

  function Finished(t: Task, exitCode: int): Task {
    t.(status := if exitCode != 0 then Failed else Completed, exitCode := exitCode)
  }

  function Requeued(t: Task): Task {
    t.(retryCount := t.retryCount + 1, status := Queued, assignedNode := Some(""))
  }

  function ChunkAssigned(c: Chunk, nodeId: string): Chunk {
    c.(assignedNode := Some(nodeId), status := Scheduled)
  }

  function ChunkMoved(c: Chunk, status: Status, exitCode: int): Chunk {
    if Done(status) then c.(status := status, exitCode := exitCode) else c.(status := status)
  }

  /** The row CreateTask inserts: what was left empty (a creation time of 0 included) has its default. */
  function StoredTask(t: Task, freshId: string, now: int): Task {
    t.(id := if t.id == "" then freshId else t.id,
       createdAt := if t.createdAt == 0 then now else t.createdAt,
       status := if t.status == Other("") then Submitted else t.status,
       priority := if t.priority == "" then "normal" else t.priority,
       worldSize := if t.worldSize == 0 then 1 else t.worldSize)
  }

  /** The row CreateTaskChunk inserts: its ID defaults to "chunk-<parent>-<index>", its status to
      queued, and exit_code is left to the column default. */
  function StoredChunk(c: Chunk): Chunk {
    c.(id := if c.id == "" then ChunkId("chunk", c.parent, c.index) else c.id,
       status := if c.status == Other("") then Queued else c.status, exitCode := -1)
  }

  // ---------- statements ----------

  function CreateTaskRow(db: Db, t: Task): Db {
    if t.id in db.tasks then db else db.(tasks := db.tasks[t.id := t])
  }

  function SetTaskStatus(db: Db, id: string, status: Status): Db {
    if id in db.tasks then db.(tasks := db.tasks[id := db.tasks[id].(status := status)]) else db
  }

  function AssignTask(db: Db, id: string, nodeId: string): Db {
    if id in db.tasks then db.(tasks := db.tasks[id := Assigned(db.tasks[id], nodeId)]) else db
  }

  function FinishTask(db: Db, id: string, exitCode: int): Db {
    if id in db.tasks then db.(tasks := db.tasks[id := Finished(db.tasks[id], exitCode)]) else db
  }

  function RequeueTask(db: Db, id: string): Db {
    if id in db.tasks then db.(tasks := db.tasks[id := Requeued(db.tasks[id])]) else db
  }

  /** A duplicate key is an error the callers drop, so the table keeps the old row. */
  function InsertChunk(chunks: map<string, Chunk>, c: Chunk): map<string, Chunk> {
    if StoredChunk(c).id in chunks then chunks else chunks[StoredChunk(c).id := StoredChunk(c)]
  }

  function SetChunkStatus(db: Db, id: string, status: Status, exitCode: int): Db {
    if id in db.chunks then db.(chunks := db.chunks[id := ChunkMoved(db.chunks[id], status, exitCode)]) else db
  }

  function AssignChunk(db: Db, id: string, nodeId: string): Db {
    if id in db.chunks then db.(chunks := db.chunks[id := ChunkAssigned(db.chunks[id], nodeId)]) else db
  }

  function SetNodeStatus(db: Db, id: string, status: NodeStatus): Db {
    if id in db.nodes then db.(nodes := db.nodes[id := db.nodes[id].(status := status)]) else db
  }

  // ---------- queries ----------

  function WaitingTasks(db: Db): set<string> {
    set id | id in db.tasks && Waiting(db.tasks[id].status)
  }

  function RunningTasks(db: Db): set<string> {
    set id | id in db.tasks && db.tasks[id].status == Running
  }

  function PendingTasks(db: Db, nodeId: string): set<string> {
    set id | id in db.tasks && db.tasks[id].assignedNode == Some(nodeId) && db.tasks[id].status == Scheduled
  }

  function QueuedChunks(db: Db): set<string> {
    set id | id in db.chunks && db.chunks[id].status == Queued
  }

  function PendingChunks(db: Db, nodeId: string): set<string> {
    set id | id in db.chunks && db.chunks[id].assignedNode == Some(nodeId) && db.chunks[id].status == Scheduled
  }

  function ChunksOf(db: Db, parent: string): set<string> {
    set id | id in db.chunks && db.chunks[id].parent == parent
  }

  function DoneChunksOf(db: Db, parent: string): set<string> {
    set id | id in db.chunks && db.chunks[id].parent == parent && Done(db.chunks[id].status)
  }

  function OnlineWorkers(db: Db): set<string> {
    set id | id in db.nodes && db.nodes[id].status == Online && db.nodes[id].role == Worker
  }

  /** The five readings GetOnlineWorkerNodes copies; the others stay zero. */
  function WorkerReadings(m: Metrics): Metrics {
    NO_METRICS.(cpuUsage := m.cpuUsage, memoryUsage := m.memoryUsage, diskUsage := m.diskUsage,
                loadAvg1 := m.loadAvg1, runningTasks := m.runningTasks)
  }

  function WorkerNode(db: Db, id: string): Node
    requires id in db.nodes
  {
    Node(db.nodes[id], if id in db.metrics then WorkerReadings(db.metrics[id]) else NO_METRICS)
  }

  /** `nodes` is what GetOnlineWorkerNodes may return. */
  ghost predicate WorkerSnapshot(db: Db, nodes: seq<Node>) {
    && DistinctIds(nodes)
    && (forall n | n in nodes :: n.row.id in OnlineWorkers(db) && n == WorkerNode(db, n.row.id))
    && (forall id | id in OnlineWorkers(db) :: WorkerNode(db, id) in nodes)
    && |nodes| == |OnlineWorkers(db)|
  }

  /** `ids` lists `keys` without repetition, in any order. */
  ghost predicate Lists(ids: seq<string>, keys: set<string>) {
    && (forall i | 0 <= i < |ids| :: ids[i] in keys)
    && (forall i, j | 0 <= i < j < |ids| :: ids[i] != ids[j])
    && (forall k | k in keys :: k in ids)
  }

  lemma {:induction false} ListsLength(ids: seq<string>, keys: set<string>)
    requires Lists(ids, keys)
    ensures |ids| == |keys|
  {
    if ids == [] {
      assert keys == {};
    } else {
      var n := |ids| - 1;
      assert forall k | k in keys - {ids[n]} :: k in ids[..n] by {
        forall k | k in keys - {ids[n]}
          ensures k in ids[..n]
        {
          var i :| 0 <= i < |ids| && ids[i] == k;
          assert ids[..n][i] == k;
        }
      }
      ListsLength(ids[..n], keys - {ids[n]});
    }
  }

  /** The CASE expression of the ORDER BY (controller/state/store.go:709-716); a priority without a case
      is NULL, which comes first. */
  function CaseRank(p: string): int {
    if p == "critical" then 0 else if p == "high" then 1 else if p == "normal" then 2 else if p == "low" then 3 else -1
  }

  predicate OrderLeq(s: Task, t: Task) {
    var p, q := CaseRank(s.priority), CaseRank(t.priority);
    p < q || (p == q && s.createdAt <= t.createdAt)
  }

  /** A listing in the order of the query. */
  ghost predicate IsOrderBy(rows: seq<Task>) {
    forall i, j | 0 <= i < j < |rows| :: OrderLeq(rows[i], rows[j])
  }

  /** Some row comes first. */
  lemma {:induction false} FirstRow(tasks: map<string, Task>, keys: set<string>) returns (first: string)
    requires keys <= tasks.Keys && keys != {}
    ensures first in keys && forall m | m in keys :: OrderLeq(tasks[first], tasks[m])
    decreases keys
  {
    var k :| k in keys;
    var rest := keys - {k};
    first := k;
    if rest != {} {
      var least := FirstRow(tasks, rest);
      if !OrderLeq(tasks[k], tasks[least]) {
        first := least;
      }
    }
    assert forall m | m in keys :: m == k || m in rest;
  }

  /** All chunks of a parent are done, and there is at least one. */
  ghost predicate AllChunksDone(db: Db, parent: string) {
    && (exists c :: c in db.chunks && db.chunks[c].parent == parent)
    && (forall c | c in db.chunks && db.chunks[c].parent == parent :: Done(db.chunks[c].status))
  }

  lemma CountsTellAllDone(db: Db, parent: string)
    ensures |ChunksOf(db, parent)| > 0 && |ChunksOf(db, parent)| == |DoneChunksOf(db, parent)| <==>
      AllChunksDone(db, parent)
  {
    var all, done := ChunksOf(db, parent), DoneChunksOf(db, parent);
    assert done <= all;
    if |all| == |done| {
      assert |all - done| == 0;
      assert all - done == {};
      assert forall c | c in db.chunks && db.chunks[c].parent == parent :: c in all;
    }
    if AllChunksDone(db, parent) {
      assert all == done;
      var c :| c in db.chunks && db.chunks[c].parent == parent;
      assert c in all;
    } else if forall c | c in db.chunks && db.chunks[c].parent == parent :: Done(db.chunks[c].status) {
      assert all == {};
    }
  }

  class Store {
    var tasks: map<string, Task>
    var chunks: map<string, Chunk>
    var nodes: map<string, NodeRow>
    var liveMetrics: map<string, Metrics>

    /** The whole contents of the store. */
    ghost function View(): Db
      reads this
    {
      Db(tasks, chunks, nodes, liveMetrics)
    }

    constructor ()
      ensures View() == Db(map[], map[], map[], map[])
    {
      tasks, chunks, nodes, liveMetrics := map[], map[], map[], map[];
    }

    /** `live` holds five of the readings stored for the node, and zeroes otherwise. */
    ghost predicate Attached(live: Metrics, id: string)
      reads this
    {
      && (id in liveMetrics ==>
            && live.cpuUsage == liveMetrics[id].cpuUsage && live.memoryUsage == liveMetrics[id].memoryUsage
            && live.diskUsage == liveMetrics[id].diskUsage && live.loadAvg1 == liveMetrics[id].loadAvg1
            && live.runningTasks == liveMetrics[id].runningTasks)
      && (id !in liveMetrics ==>
            live.cpuUsage == live.memoryUsage == live.diskUsage == live.loadAvg1 == 0.0 && live.runningTasks == 0)
      && live.loadAvg5 == live.loadAvg15 == live.cpuTemperature == 0.0 && live.uptimeSeconds == 0
    }

    /** CreateTask at time `now`; `freshId` stands for "task-" and eight characters of a new UUID. */
    method CreateTask(task: Task, freshId: string, now: int) returns (id: string)
      modifies this`tasks
      ensures id == StoredTask(task, freshId, now).id
      ensures View() == CreateTaskRow(old(View()), StoredTask(task, freshId, now))
      ensures id == if task.id == "" then freshId else task.id
      ensures tasks == if id in old(tasks) then old(tasks) else old(tasks)[id := task.(
                id := id,
                createdAt := if task.createdAt == 0 then now else task.createdAt,
                status := if task.status == Other("") then Submitted else task.status,
                priority := if task.priority == "" then "normal" else task.priority,
                worldSize := if task.worldSize == 0 then 1 else task.worldSize)]
    {
      var row := task;
      if row.id == "" {
        row := row.(id := freshId);
      }
      if row.createdAt == 0 {
        row := row.(createdAt := now);
      }
      if row.status == Other("") {
        row := row.(status := Submitted);
      }
      if row.priority == "" {
        row := row.(priority := "normal");
      }
      if row.worldSize == 0 {
        row := row.(worldSize := 1);
      }
      id := row.id;
      if id !in tasks {
        tasks := tasks[id := row];
      }
    }

    method UpdateTaskStatus(id: string, status: Status)
      modifies this`tasks
      ensures View() == SetTaskStatus(old(View()), id, status)
      ensures tasks == if id in old(tasks) then old(tasks)[id := old(tasks)[id].(status := status)] else old(tasks)
    {
      if id in tasks {
        tasks := tasks[id := tasks[id].(status := status)];
      }
    }

    method UpdateTaskAssignment(id: string, nodeId: string)
      modifies this`tasks
      ensures View() == AssignTask(old(View()), id, nodeId)
      ensures tasks.Keys == old(tasks).Keys && forall k | k in tasks :: k != id ==> tasks[k] == old(tasks)[k]
      ensures id in tasks ==> tasks[id] == old(tasks)[id].(assignedNode := Some(nodeId), status := Scheduled)
    {
      if id in tasks {
        tasks := tasks[id := tasks[id].(assignedNode := Some(nodeId), status := Scheduled)];
      }
    }

    method UpdateTaskResult(id: string, exitCode: int)
      modifies this`tasks
      ensures View() == FinishTask(old(View()), id, exitCode)
      ensures tasks.Keys == old(tasks).Keys && forall k | k in tasks :: k != id ==> tasks[k] == old(tasks)[k]
      ensures id in tasks ==>
        && (tasks[id].status == Completed <==> exitCode == 0)
        && (tasks[id].status == Failed <==> exitCode != 0)
        && tasks[id].exitCode == exitCode
        && tasks[id] == old(tasks)[id].(status := tasks[id].status, exitCode := exitCode)
    {
      var status := Completed;
      if exitCode != 0 {
        status := Failed;
      }
      if id in tasks {
        tasks := tasks[id := tasks[id].(status := status, exitCode := exitCode)];
      }
    }

    method IncrementTaskRetry(id: string)
      modifies this`tasks
      ensures View() == RequeueTask(old(View()), id)
      ensures tasks.Keys == old(tasks).Keys && forall k | k in tasks :: k != id ==> tasks[k] == old(tasks)[k]
      ensures id in tasks ==>
        && tasks[id].retryCount == old(tasks)[id].retryCount + 1
        && tasks[id].status == Queued && TextOf(tasks[id].assignedNode) == ""
        && tasks[id] == old(tasks)[id].(retryCount := tasks[id].retryCount, status := Queued,
                                        assignedNode := tasks[id].assignedNode)
    {
      if id in tasks {
        var t := tasks[id];
        tasks := tasks[id := t.(retryCount := t.retryCount + 1, status := Queued, assignedNode := Some(""))];
      }
    }

    method CreateTaskChunk(chunk: Chunk)
      modifies this`chunks
      ensures View() == old(View()).(chunks := InsertChunk(old(View()).chunks, chunk))
      ensures var id := if chunk.id == "" then "chunk-" + chunk.parent + "-" + Decimal(chunk.index) else chunk.id;
        chunks == if id in old(chunks) then old(chunks) else old(chunks)[id := chunk.(
          id := id, status := if chunk.status == Other("") then Queued else chunk.status, exitCode := -1)]
    {
      var row := chunk.(exitCode := -1);
      if row.id == "" {
        row := row.(id := ChunkId("chunk", chunk.parent, chunk.index));
        assert row.id == "chunk-" + chunk.parent + "-" + Decimal(chunk.index);
      }
      if row.status == Other("") {
        row := row.(status := Queued);
      }
      if row.id !in chunks {
        chunks := chunks[row.id := row];
      }
    }

    method UpdateChunkStatus(id: string, status: Status, exitCode: int)
      modifies this`chunks
      ensures View() == SetChunkStatus(old(View()), id, status, exitCode)
      ensures chunks.Keys == old(chunks).Keys && forall k | k in chunks :: k != id ==> chunks[k] == old(chunks)[k]
      ensures id in chunks ==>
        && chunks[id].status == status
        && chunks[id].exitCode ==
             (if status == Completed || status == Failed then exitCode else old(chunks)[id].exitCode)
        && chunks[id] == old(chunks)[id].(status := status, exitCode := chunks[id].exitCode)
    {
      if id in chunks {
        if status == Completed || status == Failed {
          chunks := chunks[id := chunks[id].(status := status, exitCode := exitCode)];
        } else {
          chunks := chunks[id := chunks[id].(status := status)];
        }
      }
    }

    method UpdateChunkAssignment(id: string, nodeId: string)
      modifies this`chunks
      ensures View() == AssignChunk(old(View()), id, nodeId)
      ensures chunks.Keys == old(chunks).Keys && forall k | k in chunks :: k != id ==> chunks[k] == old(chunks)[k]
      ensures id in chunks ==> chunks[id] == old(chunks)[id].(assignedNode := Some(nodeId), status := Scheduled)
    {
      if id in chunks {
        chunks := chunks[id := chunks[id].(assignedNode := Some(nodeId), status := Scheduled)];
      }
    }

    method UpdateNodeStatus(id: string, status: NodeStatus)
      modifies this`nodes
      ensures View() == SetNodeStatus(old(View()), id, status)
      ensures nodes == if id in old(nodes) then old(nodes)[id := old(nodes)[id].(status := status)] else old(nodes)
    {
      if id in nodes {
        nodes := nodes[id := nodes[id].(status := status)];
      }
    }

    method UpdateNodeLiveMetrics(nodeId: string, m: Metrics)
      modifies this`liveMetrics
      ensures View() == old(View()).(metrics := old(View()).metrics[nodeId := m])
    {
      liveMetrics := liveMetrics[nodeId := m];
    }

    /** AreAllChunksCompleted: two counts, compared. */
    method AreAllChunksCompleted(parent: string) returns (all: bool)
      ensures all <==> AllChunksDone(View(), parent)
      ensures all <==>
        && (exists c :: c in chunks && chunks[c].parent == parent)
        && (forall c | c in chunks && chunks[c].parent == parent ::
              chunks[c].status == Completed || chunks[c].status == Failed)
    {
      var total := |set id | id in chunks && chunks[id].parent == parent|;
      var completed := |set id | id in chunks && chunks[id].parent == parent && Done(chunks[id].status)|;
      CountsTellAllDone(View(), parent);
      return total > 0 && total == completed;
    }

    /** The IDs a query selects, in the order the engine happens to return them. */
    method Select(keys: set<string>) returns (ids: seq<string>)
      ensures Lists(ids, keys)
    {
      ids := [];
      var rest := keys;
      while rest != {}
        invariant Lists(ids, keys - rest) && rest <= keys
        decreases rest
      {
        var k :| k in rest;
        ids := ids + [k];
        rest := rest - {k};
      }
      assert keys - rest == keys;
    }

    /** The IDs of task rows in the order of GetQueuedTasks. */
    method SelectOrdered(keys: set<string>) returns (ids: seq<string>)
      requires keys <= tasks.Keys
      ensures Lists(ids, keys)
      ensures forall i, j | 0 <= i < j < |ids| :: OrderLeq(tasks[ids[i]], tasks[ids[j]])
    {
      ids := [];
      var rest := keys;
      while rest != {}
        invariant Lists(ids, keys - rest) && rest <= keys
        invariant forall i, j | 0 <= i < j < |ids| :: OrderLeq(tasks[ids[i]], tasks[ids[j]])
        invariant forall i, m | 0 <= i < |ids| && m in rest :: OrderLeq(tasks[ids[i]], tasks[m])
        decreases rest
      {
        ghost var first := FirstRow(tasks, rest);
        var k :| k in rest && forall m | m in rest :: OrderLeq(tasks[k], tasks[m]);
        ids := ids + [k];
        rest := rest - {k};
      }
      assert keys - rest == keys;
    }

    /** The waiting tasks, by priority and then by creation time. */
    method GetQueuedTasks() returns (ids: seq<string>, rows: seq<Task>)
      ensures Lists(ids, WaitingTasks(View())) && |rows| == |ids| && IsOrderBy(rows)
      ensures forall id :: id in ids <==> id in tasks && (tasks[id].status == Submitted || tasks[id].status == Queued)
      ensures forall i | 0 <= i < |ids| :: ids[i] in tasks && rows[i] == tasks[ids[i]]
    {
      ids := SelectOrdered(set id | id in tasks && (tasks[id].status == Submitted || tasks[id].status == Queued));
      rows := Fetch(tasks, ids);
    }

    method GetQueuedChunks() returns (ids: seq<string>, rows: seq<Chunk>)
      ensures Lists(ids, QueuedChunks(View())) && |rows| == |ids|
      ensures forall id :: id in ids <==> id in chunks && chunks[id].status == Queued
      ensures forall i | 0 <= i < |ids| :: ids[i] in chunks && rows[i] == chunks[ids[i]]
    {
      ids := Select(set id | id in chunks && chunks[id].status == Queued);
      rows := Fetch(chunks, ids);
    }

    /** The tasks a node has to start: assigned to it and scheduled. */
    method GetPendingTasksForNode(nodeId: string) returns (ids: seq<string>)
      ensures Lists(ids, PendingTasks(View(), nodeId))
      ensures forall id :: id in ids <==>
        id in tasks && tasks[id].assignedNode == Some(nodeId) && tasks[id].status == Scheduled
    {
      ids := Select(set id | id in tasks && tasks[id].assignedNode == Some(nodeId) && tasks[id].status == Scheduled);
    }

    method GetPendingChunksForNode(nodeId: string) returns (ids: seq<string>)
      ensures Lists(ids, PendingChunks(View(), nodeId))
      ensures forall id :: id in ids <==>
        id in chunks && chunks[id].assignedNode == Some(nodeId) && chunks[id].status == Scheduled
    {
      ids := Select(set id | id in chunks && chunks[id].assignedNode == Some(nodeId) && chunks[id].status == Scheduled);
    }

    /** ListTasks with the status filter "running". */
    method ListRunningTasks() returns (ids: seq<string>, rows: seq<Task>)
      ensures Lists(ids, RunningTasks(View())) && |rows| == |ids|
      ensures forall id :: id in ids <==> id in tasks && tasks[id].status == Running
      ensures forall i | 0 <= i < |ids| :: ids[i] in tasks && rows[i] == tasks[ids[i]]
    {
      ids := Select(set id | id in tasks && tasks[id].status == Running);
      rows := Fetch(tasks, ids);
    }

    method ListNodes() returns (ids: seq<string>, rows: seq<NodeRow>)
      ensures Lists(ids, View().nodes.Keys) && |rows| == |ids|
      ensures forall i | 0 <= i < |ids| :: ids[i] in nodes && rows[i] == nodes[ids[i]]
    {
      ids := Select(nodes.Keys);
      rows := Fetch(nodes, ids);
    }

    /** The node snapshot of a cycle. */
    method GetOnlineWorkerNodes() returns (snapshot: seq<Node>)
      requires Keyed(View())
      ensures WorkerSnapshot(View(), snapshot)
      ensures forall n | n in snapshot ::
        && n.row.id in nodes && n.row == nodes[n.row.id] && n.row.status == Online && n.row.role == Worker
        && Attached(n.live, n.row.id)
      ensures forall id | id in nodes && nodes[id].status == Online && nodes[id].role == Worker ::
        exists n :: n in snapshot && n.row.id == id
    {
      var keys := set id | id in nodes && nodes[id].status == Online && nodes[id].role == Worker;
      var ids := Select(keys);
      ListsLength(ids, keys);
      snapshot := [];
      for i := 0 to |ids|
        invariant |snapshot| == i
        invariant forall k | 0 <= k < i :: ids[k] in nodes && snapshot[k] == WorkerNode(View(), ids[k])
      {
        var row := nodes[ids[i]];
        var live := NO_METRICS;
        if ids[i] in liveMetrics {
          live := WorkerReadings(liveMetrics[ids[i]]);
        }
        snapshot := snapshot + [Node(row, live)];
      }
      forall id | id in OnlineWorkers(View())
        ensures WorkerNode(View(), id) in snapshot
      {
        var i :| 0 <= i < |ids| && ids[i] == id;
        assert snapshot[i] == WorkerNode(View(), id);
      }
      forall id | id in nodes && nodes[id].status == Online && nodes[id].role == Worker
        ensures exists n :: n in snapshot && n.row.id == id
      {
        assert id in keys;
        assert WorkerNode(View(), id) in snapshot && WorkerNode(View(), id).row.id == id;
      }
    }

    static method Fetch<V>(table: map<string, V>, ids: seq<string>) returns (rows: seq<V>)
      requires forall i | 0 <= i < |ids| :: ids[i] in table
      ensures |rows| == |ids| && forall i | 0 <= i < |ids| :: rows[i] == table[ids[i]]
    {
      rows := [];
      for i := 0 to |ids|
        invariant |rows| == i && forall k | 0 <= k < i :: rows[k] == table[ids[k]]
      {
        rows := rows + [table[ids[i]]];
      }
    }
  }
}
