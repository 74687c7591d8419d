/** One scheduling cycle, and what it decides for each row (controller/scheduler/scheduler.go:81-225). */
module Scheduling {
  import opened Records
  import opened ChunkIds
  import opened Scoring
  import opened Placement
  import opened SplitPlans
  import opened TaskStore

  // ---------- decisions for one row, taken alone on the node snapshot ----------

  /** The chunk row a gang member gets. */
  function GangChunk(t: Task, rank: nat, node: Node): Chunk {
    Chunk("", t.id, rank, NullIfEmpty(node.row.id), Scheduled, "", "", 0)
  }

  function GangChunks(t: Task, gang: seq<Node>): (chunks: seq<Chunk>)
    ensures |chunks| == |gang|
  {
    seq(|gang|, i requires 0 <= i < |gang| => GangChunk(t, i, gang[i]))
  }

  /** The chunk rows inserted for a waiting task. */
  function NewChunks(t: Task, nodes: seq<Node>, w: World): seq<Chunk> {
    if IsSplit(t) then
      match SplitPlan(t, w) case Success(chunks) => chunks case Failure(_) => []
    else if IsGang(t) then GangChunks(t, GangNodes(t, nodes))
    else []
  }

  /** The row a waiting task ends with. */
  ghost function FinalTask(t: Task, nodes: seq<Node>, w: World): Task {
    if IsSplit(t) then
      if SplitPlan(t, w).Success? then t.(status := Splitting) else Finished(t, 1)
    else if IsGang(t) then
      if |GangNodes(t, nodes)| < t.worldSize then t else t.(status := Scheduled)
    else
      match BestNode(t, nodes) case Some(n) => Assigned(t, n.row.id) case None => t
  }

  /** The nodes a waiting task is placed on. */
  ghost function PlacedOn(t: Task, nodes: seq<Node>): seq<Node> {
    if IsSplit(t) then []
    else if IsGang(t) then GangNodes(t, nodes)
    else match BestNode(t, nodes) case Some(n) => [n] case None => []
  }

  /** The readings written for a node something was placed on: one more running task than in the
      snapshot, and only five of the nine readings survive. */
  function BusyMetrics(n: Node): Metrics {
    NO_METRICS.(cpuUsage := n.live.cpuUsage, memoryUsage := n.live.memoryUsage, diskUsage := n.live.diskUsage,
                loadAvg1 := n.live.loadAvg1, runningTasks := n.live.runningTasks + 1)
  }

  /** The row a queued chunk ends with: placed as its parent would be. */
  ghost function FinalChunk(c: Chunk, tasks: map<string, Task>, nodes: seq<Node>): Chunk {
    if c.parent !in tasks then c
    else match BestNode(tasks[c.parent], nodes) case Some(n) => ChunkAssigned(c, n.row.id) case None => c
  }

  // ---------- one cycle as a relation between stores ----------

  ghost predicate TasksScheduled(before: map<string, Task>, after: map<string, Task>, nodes: seq<Node>, w: World) {
    && after.Keys == before.Keys
    && forall id | id in before ::
         after[id] == if Waiting(before[id].status) then FinalTask(before[id], nodes, w) else before[id]
  }

  /** Chunk c is inserted for the waiting task id. */
  ghost predicate Inserted(before: Db, id: string, c: Chunk, nodes: seq<Node>, w: World) {
    id in before.tasks && Waiting(before.tasks[id].status) && c in NewChunks(before.tasks[id], nodes, w)
  }

  /** Some waiting task gets a chunk row with this ID. */
  ghost predicate NewChunkId(before: Db, k: string, nodes: seq<Node>, w: World) {
    exists id, c :: Inserted(before, id, c, nodes, w) && StoredChunk(c).id == k
  }

  ghost function ChunkAfter(before: Db, k: string, nodes: seq<Node>): Chunk
    requires k in before.chunks
  {
    if before.chunks[k].status == Queued then FinalChunk(before.chunks[k], before.tasks, nodes) else before.chunks[k]
  }

  ghost predicate ChunksScheduled(before: Db, after: map<string, Chunk>, nodes: seq<Node>, w: World) {
    && (forall k :: k in after <==> k in before.chunks || NewChunkId(before, k, nodes, w))
    && (forall k | k in before.chunks :: after[k] == ChunkAfter(before, k, nodes))
    && (forall id, c | Inserted(before, id, c, nodes, w) && StoredChunk(c).id !in before.chunks ::
          StoredChunk(c).id in after && after[StoredChunk(c).id] == StoredChunk(c))
  }

  /** Some waiting task is placed on node n. */
  ghost predicate Touched(before: Db, n: Node, nodes: seq<Node>) {
    exists id :: id in before.tasks && Waiting(before.tasks[id].status) && n in PlacedOn(before.tasks[id], nodes)
  }

  ghost predicate TouchedId(before: Db, k: string, nodes: seq<Node>) {
    exists n :: Touched(before, n, nodes) && n.row.id == k
  }

  ghost predicate MetricsScheduled(before: Db, after: map<string, Metrics>, nodes: seq<Node>) {
    && (forall k :: k in after <==> k in before.metrics || TouchedId(before, k, nodes))
    && (forall n | Touched(before, n, nodes) :: n.row.id in after && after[n.row.id] == BusyMetrics(n))
    && (forall k | k in before.metrics && !TouchedId(before, k, nodes) :: after[k] == before.metrics[k])
  }

  /** What one cycle does to the store on the node snapshot: every row ends as decided for it alone,
      and all other rows are untouched. */
  ghost predicate Cycle(before: Db, after: Db, nodes: seq<Node>, w: World) {
    if nodes == [] then after == before
    else
      && TasksScheduled(before.tasks, after.tasks, nodes, w)
      && ChunksScheduled(before, after.chunks, nodes, w)
      && MetricsScheduled(before, after.metrics, nodes)
      && after.nodes == before.nodes
  }

  /** The relation is a function: two cycles from the same store on the same snapshot end in the
      same store, whatever the order in which the queued rows are listed. */
  lemma CycleIsDeterministic(before: Db, a: Db, b: Db, nodes: seq<Node>, w: World)
    requires Cycle(before, a, nodes, w) && Cycle(before, b, nodes, w)
    ensures a == b
  {
    if nodes != [] {
      assert a.tasks == b.tasks;
      ChunksDetermined(before, a.chunks, b.chunks, nodes, w);
      MetricsDetermined(before, a.metrics, b.metrics, nodes);
    }
  }

  // ---------- what a cycle leaves in the store ----------

  /** A waiting task that is neither split nor a gang is assigned the node the selectors choose and is then
      pending for it; without a suitable node its row stays. */
  lemma PlacedInStore(before: Db, after: Db, nodes: seq<Node>, w: World, id: string)
    requires Cycle(before, after, nodes, w) && nodes != []
    requires id in before.tasks && Waiting(before.tasks[id].status)
    requires var t := before.tasks[id];
      (t.taskType == Simple || t.splitStrategy == "") && !(t.isDistributed && t.worldSize > 1)
    ensures id in after.tasks
    ensures if exists i | 0 <= i < |nodes| :: Suitable(before.tasks[id], nodes[i]) then
        exists k :: IsChoice(before.tasks[id], nodes, k) && id in PendingTasks(after, nodes[k].row.id) &&
          after.tasks[id] == before.tasks[id].(assignedNode := Some(nodes[k].row.id), status := Scheduled)
      else after.tasks[id] == before.tasks[id]
  {
    var t := before.tasks[id];
    assert after.tasks[id] == FinalTask(t, nodes, w);
    BestNodeExists(t, nodes);
    if i :| 0 <= i < |nodes| && Suitable(t, nodes[i]) {
      var k := SomeChoice(t, nodes, i);
      ChoiceIsBest(t, nodes, k);
      assert IsChoice(t, nodes, k) && id in PendingTasks(after, nodes[k].row.id);
    }
  }

  /** A queued chunk goes to the node the selectors choose for its parent. */
  lemma ChunkPlacedInStore(before: Db, after: Db, nodes: seq<Node>, w: World, k: string)
    requires Cycle(before, after, nodes, w) && nodes != []
    requires k in before.chunks && before.chunks[k].status == Queued && before.chunks[k].parent in before.tasks
    ensures k in after.chunks
    ensures var t := before.tasks[before.chunks[k].parent];
      if exists i | 0 <= i < |nodes| :: Suitable(t, nodes[i]) then
        exists i :: IsChoice(t, nodes, i) &&
          after.chunks[k] == before.chunks[k].(assignedNode := Some(nodes[i].row.id), status := Scheduled)
      else after.chunks[k] == before.chunks[k]
  {
    var t := before.tasks[before.chunks[k].parent];
    assert after.chunks[k] == ChunkAfter(before, k, nodes);
    BestNodeExists(t, nodes);
    if i :| 0 <= i < |nodes| && Suitable(t, nodes[i]) {
      var c := SomeChoice(t, nodes, i);
      ChoiceIsBest(t, nodes, c);
    }
  }

  /** A waiting split task is marked splitting and every planned chunk has a row, its own one if the ID is
      new; a task that cannot be split fails with exit code 1. */
  lemma SplitInStore(before: Db, after: Db, nodes: seq<Node>, w: World, id: string)
    requires Keyed(before) && Cycle(before, after, nodes, w) && nodes != []
    requires id in before.tasks && Waiting(before.tasks[id].status)
    requires before.tasks[id].taskType == Split && before.tasks[id].splitStrategy != ""
    ensures id in after.tasks
    ensures match SplitPlan(before.tasks[id], w)
      case Failure(_) => after.tasks[id] == before.tasks[id].(status := Failed, exitCode := 1)
      case Success(plan) =>
        && after.tasks[id] == before.tasks[id].(status := Splitting)
        && forall c | c in plan ::
             && c.id in after.chunks
             && (c.id !in before.chunks ==> after.chunks[c.id] == c.(exitCode := -1))
  {
    var t := before.tasks[id];
    assert after.tasks[id] == FinalTask(t, nodes, w);
    if SplitPlan(t, w).Success? {
      forall c | c in SplitPlan(t, w).value
        ensures c.id in after.chunks && (c.id !in before.chunks ==> after.chunks[c.id] == c.(exitCode := -1))
      {
        assert c == PlannedChunk(t, c.index) && c.id != "" && StoredChunk(c) == c.(exitCode := -1);
        assert Inserted(before, id, c, nodes, w);
      }
    }
  }

  /** Some waiting task is scheduled on node n by the cycle. */
  ghost predicate GetsWork(before: Db, after: Db, n: Node, nodes: seq<Node>) {
    exists id :: id in before.tasks && id in after.tasks &&
      Waiting(before.tasks[id].status) && after.tasks[id].status == Scheduled &&
      if IsGang(before.tasks[id]) then n in GangNodes(before.tasks[id], nodes)
      else after.tasks[id].assignedNode == Some(n.row.id)
  }

  lemma GetsWorkIsTouched(before: Db, after: Db, n: Node, nodes: seq<Node>, w: World)
    requires Cycle(before, after, nodes, w) && nodes != [] && DistinctIds(nodes) && n in nodes
    ensures GetsWork(before, after, n, nodes) <==> Touched(before, n, nodes)
  {
    forall id | id in before.tasks && Waiting(before.tasks[id].status)
      ensures (after.tasks[id].status == Scheduled &&
        if IsGang(before.tasks[id]) then n in GangNodes(before.tasks[id], nodes)
        else after.tasks[id].assignedNode == Some(n.row.id)) <==> n in PlacedOn(before.tasks[id], nodes)
    {
      assert after.tasks[id] == FinalTask(before.tasks[id], nodes, w);
      ScheduledHere(before.tasks[id], n, nodes, w);
    }
  }

  lemma ScheduledHere(t: Task, n: Node, nodes: seq<Node>, w: World)
    requires DistinctIds(nodes) && n in nodes && Waiting(t.status)
    ensures var u := FinalTask(t, nodes, w);
      (u.status == Scheduled && if IsGang(t) then n in GangNodes(t, nodes) else u.assignedNode == Some(n.row.id)) <==>
      n in PlacedOn(t, nodes)
  {
    if !IsSplit(t) && !IsGang(t) && BestNode(t, nodes).Some? {
      BestNodeEligible(t, nodes);
    }
  }

  /** The readings after a cycle: a node that was given work shows one running task more than in the
      snapshot, whatever number of tasks it was given, and every reading else is as it was. */
  lemma ReadingsAfterCycle(before: Db, after: Db, nodes: seq<Node>, w: World, n: Node)
    requires Keyed(before) && WorkerSnapshot(before, nodes) && Cycle(before, after, nodes, w) && n in nodes
    ensures n.row.id in after.nodes
    ensures var live := WorkerNode(after, n.row.id).live;
      && live.cpuUsage == n.live.cpuUsage && live.memoryUsage == n.live.memoryUsage
      && live.diskUsage == n.live.diskUsage && live.loadAvg1 == n.live.loadAvg1
      && live.runningTasks == n.live.runningTasks + if GetsWork(before, after, n, nodes) then 1 else 0
    ensures GetsWork(before, after, n, nodes) ==>
      && n.row.id in after.metrics && var m := after.metrics[n.row.id];
      && m.cpuUsage == n.live.cpuUsage && m.memoryUsage == n.live.memoryUsage
      && m.diskUsage == n.live.diskUsage && m.loadAvg1 == n.live.loadAvg1
      && m.runningTasks == n.live.runningTasks + 1
  {
    GetsWorkIsTouched(before, after, n, nodes, w);
    assert n == WorkerNode(before, n.row.id);
    if !Touched(before, n, nodes) {
      OnlyItsNodeTouches(before, nodes, n);
    }
  }

  lemma OnlyItsNodeTouches(before: Db, nodes: seq<Node>, n: Node)
    requires DistinctIds(nodes) && n in nodes && !Touched(before, n, nodes)
    ensures !TouchedId(before, n.row.id, nodes)
  {
    if m :| Touched(before, m, nodes) && m.row.id == n.row.id {
      var id :| id in before.tasks && Waiting(before.tasks[id].status) && m in PlacedOn(before.tasks[id], nodes);
      PlacedOnListed(before.tasks[id], nodes);
    }
  }

  lemma ChunksDetermined(before: Db, a: map<string, Chunk>, b: map<string, Chunk>, nodes: seq<Node>, w: World)
    requires ChunksScheduled(before, a, nodes, w) && ChunksScheduled(before, b, nodes, w)
    ensures a == b
  {
    forall k | k in a
      ensures k in b && a[k] == b[k]
    {
      if k in before.chunks {
        assert a[k] == ChunkAfter(before, k, nodes);
      } else {
        NewRowDetermined(before, a, b, nodes, w, k);
      }
    }
    assert forall k | k in b :: k in a;
  }

  lemma NewRowDetermined(before: Db, a: map<string, Chunk>, b: map<string, Chunk>, nodes: seq<Node>, w: World,
                         k: string)
    requires ChunksScheduled(before, a, nodes, w) && ChunksScheduled(before, b, nodes, w)
    requires k in a && k !in before.chunks
    ensures k in b && a[k] == b[k]
  {
    assert NewChunkId(before, k, nodes, w);
    var id, c :| Inserted(before, id, c, nodes, w) && StoredChunk(c).id == k;
  }

  lemma MetricsDetermined(before: Db, a: map<string, Metrics>, b: map<string, Metrics>, nodes: seq<Node>)
    requires MetricsScheduled(before, a, nodes) && MetricsScheduled(before, b, nodes)
    ensures a == b
  {
    forall k | k in a
      ensures k in b && a[k] == b[k]
    {
      if TouchedId(before, k, nodes) {
        MetricDetermined(before, a, b, nodes, k);
      }
    }
    assert forall k | k in b :: k in a;
  }

  lemma MetricDetermined(before: Db, a: map<string, Metrics>, b: map<string, Metrics>, nodes: seq<Node>, k: string)
    requires MetricsScheduled(before, a, nodes) && MetricsScheduled(before, b, nodes) && TouchedId(before, k, nodes)
    ensures k in a && k in b && a[k] == b[k]
  {
    var n :| Touched(before, n, nodes) && n.row.id == k;
  }

  lemma {:induction false} SnapshotOf(db: Db, keys: set<string>) returns (nodes: seq<Node>)
    requires Keyed(db) && forall id | id in keys :: id in db.nodes
    ensures DistinctIds(nodes) && |nodes| == |keys|
    ensures forall n | n in nodes :: n.row.id in keys && n == WorkerNode(db, n.row.id)
    ensures forall id | id in keys :: WorkerNode(db, id) in nodes
    decreases keys
  {
    if keys == {} {
      nodes := [];
    } else {
      var k :| k in keys;
      var rest := SnapshotOf(db, keys - {k});
      nodes := rest + [WorkerNode(db, k)];
      assert forall n :: n in nodes <==> n in rest || n == WorkerNode(db, k);
      assert forall i | 0 <= i < |rest| :: rest[i] in rest;
    }
  }

  lemma SnapshotExists(db: Db) returns (nodes: seq<Node>)
    requires Keyed(db)
    ensures WorkerSnapshot(db, nodes)
  {
    nodes := SnapshotOf(db, OnlineWorkers(db));
  }

  // ---------- the loops as folds ----------

  function InsertAll(m: map<string, Chunk>, list: seq<Chunk>): map<string, Chunk> {
    if list == [] then m else InsertChunk(InsertAll(m, list[..|list| - 1]), list[|list| - 1])
  }

  function BusyAll(m: map<string, Metrics>, list: seq<Node>): map<string, Metrics> {
    if list == [] then m
    else
      var n := list[|list| - 1];
      BusyAll(m, list[..|list| - 1])[n.row.id := BusyMetrics(n)]
  }

  lemma {:induction false} InsertAllConcat(m: map<string, Chunk>, a: seq<Chunk>, b: seq<Chunk>)
    ensures InsertAll(m, a + b) == InsertAll(InsertAll(m, a), b)
    decreases |b|
  {
    if b == [] {
      assert a + b == a;
    } else {
      assert (a + b)[..|a + b| - 1] == a + b[..|b| - 1];
      InsertAllConcat(m, a, b[..|b| - 1]);
    }
  }

  lemma {:induction false} BusyAllConcat(m: map<string, Metrics>, a: seq<Node>, b: seq<Node>)
    ensures BusyAll(m, a + b) == BusyAll(BusyAll(m, a), b)
    decreases |b|
  {
    if b == [] {
      assert a + b == a;
    } else {
      assert (a + b)[..|a + b| - 1] == a + b[..|b| - 1];
      BusyAllConcat(m, a, b[..|b| - 1]);
    }
  }

  /** Chunks whose IDs, if equal, belong to equal chunks. */
  ghost predicate ConsistentChunks(list: seq<Chunk>) {
    forall c, d | c in list && d in list :: StoredChunk(c).id == StoredChunk(d).id ==> StoredChunk(c) == StoredChunk(d)
  }

  /** The row under one ID after all inserts. */
  lemma {:induction false} InsertAllAt(m: map<string, Chunk>, list: seq<Chunk>, k: string)
    requires ConsistentChunks(list)
    ensures var r := InsertAll(m, list);
      && (k in r <==> k in m || exists c :: c in list && StoredChunk(c).id == k)
      && (k in m ==> r[k] == m[k])
      && (forall c | c in list && StoredChunk(c).id == k && k !in m :: r[k] == StoredChunk(c))
  {
    if list != [] {
      var front, last := list[..|list| - 1], list[|list| - 1];
      assert list == front + [last];
      assert forall c :: c in list <==> c in front || c == last;
      InsertAllAt(m, front, k);
    }
  }

  lemma InsertAllFacts(m: map<string, Chunk>, list: seq<Chunk>)
    requires ConsistentChunks(list)
    ensures var r := InsertAll(m, list);
      && (forall k :: k in r <==> k in m || exists c :: c in list && StoredChunk(c).id == k)
      && (forall k | k in m :: r[k] == m[k])
      && (forall c | c in list && StoredChunk(c).id !in m :: r[StoredChunk(c).id] == StoredChunk(c))
  {
    forall k
      ensures k in InsertAll(m, list) <==> k in m || exists c :: c in list && StoredChunk(c).id == k
      ensures k in m ==> InsertAll(m, list)[k] == m[k]
    {
      InsertAllAt(m, list, k);
    }
    forall c | c in list && StoredChunk(c).id !in m
      ensures InsertAll(m, list)[StoredChunk(c).id] == StoredChunk(c)
    {
      InsertAllAt(m, list, StoredChunk(c).id);
    }
  }

  lemma {:induction false} BusyAllFacts(m: map<string, Metrics>, list: seq<Node>)
    requires forall a, b | a in list && b in list :: a.row.id == b.row.id ==> a == b
    ensures var r := BusyAll(m, list);
      && (forall k :: k in r <==> k in m || exists n :: n in list && n.row.id == k)
      && (forall n | n in list :: r[n.row.id] == BusyMetrics(n))
      && (forall k | k in m && !(exists n :: n in list && n.row.id == k) :: r[k] == m[k])
  {
    if list != [] {
      var front, last := list[..|list| - 1], list[|list| - 1];
      assert list == front + [last];
      assert forall c :: c in list <==> c in front || c == last;
      BusyAllFacts(m, front);
    }
  }

  /** All chunks inserted, and all nodes placed on, for a list of waiting tasks. */
  function AllNewChunks(rows: seq<Task>, nodes: seq<Node>, w: World): seq<Chunk> {
    if rows == [] then []
    else AllNewChunks(rows[..|rows| - 1], nodes, w) + NewChunks(rows[|rows| - 1], nodes, w)
  }

  ghost function AllPlacedOn(rows: seq<Task>, nodes: seq<Node>): seq<Node> {
    if rows == [] then []
    else AllPlacedOn(rows[..|rows| - 1], nodes) + PlacedOn(rows[|rows| - 1], nodes)
  }

  lemma {:induction false} AllNewChunksMembers(rows: seq<Task>, nodes: seq<Node>, w: World, c: Chunk)
    ensures c in AllNewChunks(rows, nodes, w) <==> exists t :: t in rows && c in NewChunks(t, nodes, w)
  {
    if rows != [] {
      var front, last := rows[..|rows| - 1], rows[|rows| - 1];
      assert rows == front + [last];
      AllNewChunksMembers(front, nodes, w, c);
    }
  }

  lemma {:induction false} AllPlacedOnMembers(rows: seq<Task>, nodes: seq<Node>, n: Node)
    ensures n in AllPlacedOn(rows, nodes) <==> exists t :: t in rows && n in PlacedOn(t, nodes)
  {
    if rows != [] {
      var front, last := rows[..|rows| - 1], rows[|rows| - 1];
      assert rows == front + [last];
      AllPlacedOnMembers(front, nodes, n);
    }
  }

  /** What one turn of the task loop does. */
  ghost function TaskTurn(db: Db, t: Task, nodes: seq<Node>, w: World): Db
    requires t.id in db.tasks
  {
    Db(db.tasks[t.id := FinalTask(db.tasks[t.id], nodes, w)],
       InsertAll(db.chunks, NewChunks(t, nodes, w)),
       db.nodes,
       BusyAll(db.metrics, PlacedOn(t, nodes)))
  }

  ghost predicate RowsAfter(before: map<string, Task>, ids: seq<string>, now: map<string, Task>, nodes: seq<Node>,
                            w: World) {
    && now.Keys == before.Keys
    && forall id | id in before :: now[id] == if id in ids then FinalTask(before[id], nodes, w) else before[id]
  }

  /** The other tables after the turns for the tasks whose rows were `rows`. */
  ghost predicate TablesAfter(before: Db, rows: seq<Task>, now: Db, nodes: seq<Node>, w: World) {
    && now.chunks == InsertAll(before.chunks, AllNewChunks(rows, nodes, w))
    && now.nodes == before.nodes
    && now.metrics == BusyAll(before.metrics, AllPlacedOn(rows, nodes))
  }

  lemma NextRow(before: map<string, Task>, ids: seq<string>, now: map<string, Task>, nodes: seq<Node>, w: World,
                id: string)
    requires RowsAfter(before, ids, now, nodes, w) && id in before && id !in ids
    ensures RowsAfter(before, ids + [id], now[id := FinalTask(now[id], nodes, w)], nodes, w)
  {
    assert forall k :: k in ids + [id] <==> k in ids || k == id;
  }

  lemma RowUntouched(before: map<string, Task>, done: seq<string>, now: map<string, Task>, nodes: seq<Node>,
                     w: World, id: string)
    requires RowsAfter(before, done, now, nodes, w) && id in before && id !in done
    ensures id in now && now[id] == before[id]
  {
  }

  lemma TurnIsNext(before: Db, ids: seq<string>, rows: seq<Task>, i: nat)
    requires Keyed(before) && Lists(ids, WaitingTasks(before)) && RowsOf(before, ids, rows) && i < |rows|
    ensures rows[i].id == ids[i] && ids[i] in before.tasks && before.tasks[ids[i]] == rows[i] && ids[i] !in ids[..i]
    ensures ids[..i + 1] == ids[..i] + [ids[i]] && rows[..i + 1] == rows[..i] + [rows[i]]
  {
  }

  lemma NextTables(before: Db, rows: seq<Task>, t: Task, nodes: seq<Node>, w: World)
    ensures InsertAll(before.chunks, AllNewChunks(rows + [t], nodes, w)) ==
            InsertAll(InsertAll(before.chunks, AllNewChunks(rows, nodes, w)), NewChunks(t, nodes, w))
    ensures BusyAll(before.metrics, AllPlacedOn(rows + [t], nodes)) ==
            BusyAll(BusyAll(before.metrics, AllPlacedOn(rows, nodes)), PlacedOn(t, nodes))
  {
    assert (rows + [t])[..|rows|] == rows;
    InsertAllConcat(before.chunks, AllNewChunks(rows, nodes, w), NewChunks(t, nodes, w));
    BusyAllConcat(before.metrics, AllPlacedOn(rows, nodes), PlacedOn(t, nodes));
  }

  // ---------- chunk IDs of different tasks never clash ----------

  lemma NewChunkShape(t: Task, nodes: seq<Node>, w: World, c: Chunk)
    requires c in NewChunks(t, nodes, w)
    ensures c.parent == t.id
    ensures exists p :: LegalPrefix(p) && StoredChunk(c).id == ChunkId(p, t.id, c.index)
  {
    if IsSplit(t) {
      PrefixLegal(t.splitStrategy);
      assert c == PlannedChunk(t, c.index);
      assert StoredChunk(c).id == ChunkId(PrefixOf(t.splitStrategy), t.id, c.index);
    } else {
      assert StoredChunk(c).id == ChunkId("chunk", t.id, c.index);
      assert LegalPrefix("chunk");
    }
  }

  /** Within one task the index determines the chunk. */
  lemma NewChunkByIndex(t: Task, nodes: seq<Node>, w: World, c: Chunk, d: Chunk)
    requires c in NewChunks(t, nodes, w) && d in NewChunks(t, nodes, w) && c.index == d.index
    ensures c == d
  {
    if IsSplit(t) {
      assert c == PlannedChunk(t, c.index) && d == PlannedChunk(t, d.index);
    } else {
      var gang := GangNodes(t, nodes);
      var i :| 0 <= i < |gang| && GangChunk(t, i, gang[i]) == c;
      var j :| 0 <= j < |gang| && GangChunk(t, j, gang[j]) == d;
    }
  }

  lemma NewChunksConsistent(rows: seq<Task>, nodes: seq<Node>, w: World)
    requires forall s, t | s in rows && t in rows :: s.id == t.id ==> s == t
    ensures ConsistentChunks(AllNewChunks(rows, nodes, w))
  {
    var all := AllNewChunks(rows, nodes, w);
    forall c, d | c in all && d in all && StoredChunk(c).id == StoredChunk(d).id
      ensures c == d
    {
      AllNewChunksMembers(rows, nodes, w, c);
      AllNewChunksMembers(rows, nodes, w, d);
      var s :| s in rows && c in NewChunks(s, nodes, w);
      var t :| t in rows && d in NewChunks(t, nodes, w);
      NewChunkShape(s, nodes, w, c);
      NewChunkShape(t, nodes, w, d);
      var p :| LegalPrefix(p) && StoredChunk(c).id == ChunkId(p, s.id, c.index);
      var q :| LegalPrefix(q) && StoredChunk(d).id == ChunkId(q, t.id, d.index);
      ChunkIdInjective(p, s.id, c.index, q, t.id, d.index);
      NewChunkByIndex(s, nodes, w, c, d);
    }
  }

  // ---------- from the loops to the pointwise decisions ----------

  /** `rows` are the rows of all waiting tasks. */
  ghost predicate WaitingRows(db: Db, rows: seq<Task>) {
    && (forall t | t in rows :: t.id in db.tasks && db.tasks[t.id] == t && Waiting(t.status))
    && (forall id | id in db.tasks && Waiting(db.tasks[id].status) :: db.tasks[id] in rows)
  }

  ghost predicate RowsOf(db: Db, ids: seq<string>, rows: seq<Task>) {
    |rows| == |ids| && forall i | 0 <= i < |ids| :: ids[i] in db.tasks && rows[i] == db.tasks[ids[i]]
  }

  lemma RowsOfIds(db: Db, ids: seq<string>, rows: seq<Task>)
    requires Keyed(db) && Lists(ids, WaitingTasks(db)) && RowsOf(db, ids, rows)
    ensures WaitingRows(db, rows)
  {
    forall id | id in db.tasks && Waiting(db.tasks[id].status)
      ensures db.tasks[id] in rows
    {
      assert id in WaitingTasks(db);
      var i :| 0 <= i < |ids| && ids[i] == id;
      assert rows[i] == db.tasks[id];
    }
  }

  lemma InsertedIsNew(db: Db, rows: seq<Task>, nodes: seq<Node>, w: World, c: Chunk)
    requires Keyed(db) && WaitingRows(db, rows)
    ensures c in AllNewChunks(rows, nodes, w) <==> exists id :: Inserted(db, id, c, nodes, w)
  {
    AllNewChunksMembers(rows, nodes, w, c);
    if t :| t in rows && c in NewChunks(t, nodes, w) {
      assert Inserted(db, t.id, c, nodes, w);
    }
  }

  lemma TouchedIsPlacedOn(db: Db, rows: seq<Task>, nodes: seq<Node>, n: Node)
    requires Keyed(db) && WaitingRows(db, rows)
    ensures n in AllPlacedOn(rows, nodes) <==> Touched(db, n, nodes)
  {
    AllPlacedOnMembers(rows, nodes, n);
    if t :| t in rows && n in PlacedOn(t, nodes) {
      assert t.id in db.tasks && db.tasks[t.id] == t;
    }
  }

  /** The chunk table after the task loop: the old rows, and one row per new ID. */
  lemma ChunkTableAfterTurns(db: Db, rows: seq<Task>, nodes: seq<Node>, w: World)
    requires Keyed(db) && WaitingRows(db, rows)
    ensures var r := InsertAll(db.chunks, AllNewChunks(rows, nodes, w));
      && (forall k :: k in r <==> k in db.chunks || NewChunkId(db, k, nodes, w))
      && (forall k | k in db.chunks :: r[k] == db.chunks[k])
      && (forall id, c | Inserted(db, id, c, nodes, w) && StoredChunk(c).id !in db.chunks ::
            r[StoredChunk(c).id] == StoredChunk(c))
  {
    NewChunksConsistent(rows, nodes, w);
    InsertAllFacts(db.chunks, AllNewChunks(rows, nodes, w));
    forall c
      ensures c in AllNewChunks(rows, nodes, w) <==> exists id :: Inserted(db, id, c, nodes, w)
    {
      InsertedIsNew(db, rows, nodes, w, c);
    }
  }

  lemma PlacedOnListed(t: Task, nodes: seq<Node>)
    requires DistinctIds(nodes)
    ensures forall n | n in PlacedOn(t, nodes) :: n in nodes
  {
    if IsGang(t) {
      EligibleNodesFacts(t, nodes);
    } else if !IsSplit(t) && BestNode(t, nodes).Some? {
      BestNodeEligible(t, nodes);
    }
  }

  lemma MetricsAfterTurns(db: Db, rows: seq<Task>, nodes: seq<Node>)
    requires Keyed(db) && WaitingRows(db, rows) && DistinctIds(nodes)
    ensures MetricsScheduled(db, BusyAll(db.metrics, AllPlacedOn(rows, nodes)), nodes)
  {
    var list := AllPlacedOn(rows, nodes);
    AllPlacedOnListed(rows, nodes);
    BusyAllFacts(db.metrics, list);
    forall n
      ensures n in list <==> Touched(db, n, nodes)
    {
      TouchedIsPlacedOn(db, rows, nodes, n);
    }
    forall k
      ensures TouchedId(db, k, nodes) <==> exists n :: n in list && n.row.id == k
    {
    }
  }

  lemma AllPlacedOnListed(rows: seq<Task>, nodes: seq<Node>)
    requires DistinctIds(nodes)
    ensures forall n | n in AllPlacedOn(rows, nodes) :: n in nodes
    ensures forall a, b | a in AllPlacedOn(rows, nodes) && b in AllPlacedOn(rows, nodes) ::
      a.row.id == b.row.id ==> a == b
  {
    forall n | n in AllPlacedOn(rows, nodes)
      ensures n in nodes
    {
      AllPlacedOnMembers(rows, nodes, n);
      var t :| t in rows && n in PlacedOn(t, nodes);
      PlacedOnListed(t, nodes);
    }
  }

  // ---------- the chunk loop ----------

  /** The chunk table after the loop has gone through `ids`. */
  ghost predicate ChunkRowsAfter(before: map<string, Chunk>, ids: seq<string>, now: map<string, Chunk>,
                                 tasks: map<string, Task>, nodes: seq<Node>) {
    && now.Keys == before.Keys
    && forall k | k in before :: now[k] == if k in ids then FinalChunk(before[k], tasks, nodes) else before[k]
  }

  /** What a node must offer: all a task row contributes to placement. */
  predicate SameDemand(s: Task, t: Task) {
    s.cpuRequired == t.cpuRequired && s.memoryRequired == t.memoryRequired
    && s.gpuRequired == t.gpuRequired && s.targetNode == t.targetNode
  }

  /** A row scheduled earlier in the cycle places its chunks as the row before would. */
  lemma SameDemandSameNode(s: Task, t: Task, nodes: seq<Node>)
    requires SameDemand(s, t)
    ensures BestNode(s, nodes) == BestNode(t, nodes)
  {
    forall i
      ensures IsChoice(s, nodes, i) <==> IsChoice(t, nodes, i)
    {
      if IsChoice(s, nodes, i) {
        ChoiceTransfers(s, t, nodes, i);
      }
      if IsChoice(t, nodes, i) {
        ChoiceTransfers(t, s, nodes, i);
      }
    }
    if i :| IsChoice(s, nodes, i) {
      ChoiceIsBest(s, nodes, i);
      ChoiceIsBest(t, nodes, i);
    }
  }

  lemma ChoiceTransfers(s: Task, t: Task, nodes: seq<Node>, i: int)
    requires SameDemand(s, t) && IsChoice(s, nodes, i)
    ensures IsChoice(t, nodes, i)
  {
    forall n | n in nodes
      ensures Eligible(s, n) == Eligible(t, n) && ScoreNode(s, n) == ScoreNode(t, n)
    {
    }
  }

  lemma FinalTaskSameDemand(t: Task, nodes: seq<Node>, w: World)
    ensures SameDemand(FinalTask(t, nodes, w), t)
  {
  }

  /** The whole cycle: the turns of the task loop, then those of the chunk loop. */
  lemma CycleComplete(before: Db, middle: Db, after: Db, ids: seq<string>, rows: seq<Task>, chunkIds: seq<string>,
                      nodes: seq<Node>, w: World)
    requires Keyed(before) && nodes != [] && DistinctIds(nodes)
    requires Lists(ids, WaitingTasks(before)) && RowsOf(before, ids, rows)
    requires RowsAfter(before.tasks, ids, middle.tasks, nodes, w) && TablesAfter(before, rows, middle, nodes, w)
    requires Lists(chunkIds, QueuedChunks(before))
    requires ChunkRowsAfter(middle.chunks, chunkIds, after.chunks, before.tasks, nodes)
    requires after == middle.(chunks := after.chunks)
    ensures Cycle(before, after, nodes, w)
  {
    RowsOfIds(before, ids, rows);
    ChunkTableAfterTurns(before, rows, nodes, w);
    MetricsAfterTurns(before, rows, nodes);
    assert TasksScheduled(before.tasks, after.tasks, nodes, w) by {
      assert forall id | id in before.tasks :: id in ids <==> id in WaitingTasks(before);
    }
    ChunkLoopComplete(before, middle.chunks, after.chunks, chunkIds, nodes, w);
  }

  lemma ChunkLoopComplete(before: Db, middle: map<string, Chunk>, after: map<string, Chunk>, chunkIds: seq<string>,
                          nodes: seq<Node>, w: World)
    requires Lists(chunkIds, QueuedChunks(before))
    requires forall k :: k in middle <==> k in before.chunks || NewChunkId(before, k, nodes, w)
    requires forall k | k in before.chunks :: middle[k] == before.chunks[k]
    requires forall id, c | Inserted(before, id, c, nodes, w) && StoredChunk(c).id !in before.chunks ::
      StoredChunk(c).id in middle && middle[StoredChunk(c).id] == StoredChunk(c)
    requires ChunkRowsAfter(middle, chunkIds, after, before.tasks, nodes)
    ensures ChunksScheduled(before, after, nodes, w)
  {
    forall k | k in before.chunks
      ensures after[k] == ChunkAfter(before, k, nodes)
    {
      assert k in chunkIds <==> k in QueuedChunks(before);
    }
  }

  // ---------- the scheduler ----------

  class Scheduler {
    const store: Store

    constructor (store: Store)
      ensures this.store == store
    {
      this.store := store;
    }

    /** Lines 109-124: split the task and insert its chunks, or fail it. */
    method SplitTurn(task: Task, nodes: seq<Node>, w: World)
      requires IsSplit(task) && task.id in store.tasks && store.tasks[task.id] == task
      modifies store
      ensures store.View() == TaskTurn(old(store.View()), task, nodes, w)
    {
      var plan := SplitTask(task, w);
      if plan.Failure? {
        store.UpdateTaskResult(task.id, 1);
        return;
      }
      for i := 0 to |plan.value|
        invariant store.View() == old(store.View()).(chunks := InsertAll(old(store.View()).chunks, plan.value[..i]))
      {
        assert plan.value[..i + 1][..i] == plan.value[..i];
        store.CreateTaskChunk(plan.value[i]);
      }
      assert plan.value[..|plan.value|] == plan.value;
      store.UpdateTaskStatus(task.id, Splitting);
    }

    /** Lines 126-168: all members of a gang at once, or nothing. */
    method GangTurn(task: Task, nodes: seq<Node>, w: World)
      requires IsGang(task) && task.id in store.tasks && store.tasks[task.id] == task
      modifies store
      ensures store.View() == TaskTurn(old(store.View()), task, nodes, w)
    {
      var gang := FindGangNodes(task, nodes);
      if |gang| < task.worldSize {
        assert gang == [];
        return;
      }
      PlaceMembers(task, gang);
      store.UpdateTaskStatus(task.id, Scheduled);
    }

    /** One chunk for each member of a gang. */
    method PlaceMembers(task: Task, gang: seq<Node>)
      modifies store
      ensures store.View() == old(store.View()).(
                chunks := InsertAll(old(store.View()).chunks, GangChunks(task, gang)),
                metrics := BusyAll(old(store.View()).metrics, gang))
    {
      ghost var chunks := GangChunks(task, gang);
      ghost var was := store.View();
      for i := 0 to |gang|
        invariant store.View() ==
          was.(chunks := InsertAll(was.chunks, chunks[..i]), metrics := BusyAll(was.metrics, gang[..i]))
      {
        assert chunks[..i + 1][..i] == chunks[..i] && gang[..i + 1][..i] == gang[..i];
        var node := gang[i];
        store.CreateTaskChunk(Chunk("", task.id, i, NullIfEmpty(node.row.id), Scheduled, "", "", 0));
        store.UpdateNodeLiveMetrics(node.row.id, BusyMetrics(node));
      }
      assert chunks[..|gang|] == chunks && gang[..|gang|] == gang;
    }

    /** One turn of the task loop. */
    method Turn(task: Task, nodes: seq<Node>, w: World)
      requires task.id in store.tasks && store.tasks[task.id] == task
      modifies store
      ensures store.View() == TaskTurn(old(store.View()), task, nodes, w)
    {
      if task.taskType == Split && task.splitStrategy != "" {
        SplitTurn(task, nodes, w);
        return;
      }
      if task.isDistributed && task.worldSize > 1 {
        GangTurn(task, nodes, w);
        return;
      }
      var bestNode := FindBestNode(task, nodes);
      if bestNode == None {
        return;
      }
      var n := bestNode.value;
      store.UpdateTaskAssignment(task.id, n.row.id);
      store.UpdateNodeLiveMetrics(n.row.id, BusyMetrics(n));
      assert PlacedOn(task, nodes) == [n];
      assert BusyAll(old(store.View()).metrics, [n]) == old(store.View()).metrics[n.row.id := BusyMetrics(n)];
    }

    /** One turn of the chunk loop. */
    method ChunkTurn(chunk: Chunk, nodes: seq<Node>)
      requires chunk.id in store.chunks && store.chunks[chunk.id] == chunk
      modifies store
      ensures store.View() == old(store.View()).(chunks :=
                old(store.chunks)[chunk.id := FinalChunk(chunk, old(store.tasks), nodes)])
    {
      if chunk.parent !in store.tasks {
        return;
      }
      var bestNode := FindBestNode(store.tasks[chunk.parent], nodes);
      if bestNode == None {
        return;
      }
      store.UpdateChunkAssignment(chunk.id, bestNode.value.row.id);
    }

    /** The task loop over a listing of the waiting tasks. */
    method TaskLoop(ids: seq<string>, rows: seq<Task>, nodes: seq<Node>, w: World)
      requires Keyed(store.View()) && Lists(ids, WaitingTasks(store.View())) && RowsOf(store.View(), ids, rows)
      modifies store
      ensures RowsAfter(old(store.tasks), ids, store.tasks, nodes, w)
      ensures TablesAfter(old(store.View()), rows, store.View(), nodes, w)
    {
      ghost var was, done, seen := store.View(), [], [];
      for i := 0 to |rows|
        invariant done == ids[..i] && seen == rows[..i]
        invariant RowsAfter(was.tasks, done, store.tasks, nodes, w)
        invariant TablesAfter(was, seen, store.View(), nodes, w)
      {
        TurnIsNext(was, ids, rows, i);
        NextTurn(rows[i], nodes, w, was, done, seen);
        done, seen := done + [rows[i].id], seen + [rows[i]];
      }
      assert done == ids && seen == rows;
    }

    /** One more turn, after the turns for the rows `seen` of the tasks `done`. */
    method NextTurn(task: Task, nodes: seq<Node>, w: World, ghost was: Db, ghost done: seq<string>,
                    ghost seen: seq<Task>)
      requires RowsAfter(was.tasks, done, store.tasks, nodes, w) && TablesAfter(was, seen, store.View(), nodes, w)
      requires task.id in was.tasks && was.tasks[task.id] == task && task.id !in done
      modifies store
      ensures RowsAfter(was.tasks, done + [task.id], store.tasks, nodes, w)
      ensures TablesAfter(was, seen + [task], store.View(), nodes, w)
    {
      RowUntouched(was.tasks, done, store.tasks, nodes, w, task.id);
      NextRow(was.tasks, done, store.tasks, nodes, w, task.id);
      NextTables(was, seen, task, nodes, w);
      Turn(task, nodes, w);
    }

    /** The chunk loop over a listing of the chunks that were queued when the cycle started. */
    method ChunkLoop(ids: seq<string>, rows: seq<Chunk>, nodes: seq<Node>, ghost tasks: map<string, Task>)
      requires |rows| == |ids| && forall i, j | 0 <= i < j < |ids| :: ids[i] != ids[j]
      requires forall i | 0 <= i < |ids| ::
        ids[i] in store.chunks && rows[i] == store.chunks[ids[i]] && rows[i].id == ids[i]
      requires tasks.Keys == store.tasks.Keys && forall id | id in tasks :: SameDemand(store.tasks[id], tasks[id])
      modifies store
      ensures ChunkRowsAfter(old(store.chunks), ids, store.chunks, tasks, nodes)
      ensures store.View() == old(store.View()).(chunks := store.chunks)
    {
      for i := 0 to |ids|
        invariant ChunkRowsAfter(old(store.chunks), ids[..i], store.chunks, tasks, nodes)
        invariant store.View() == old(store.View()).(chunks := store.chunks)
      {
        assert ids[i] !in ids[..i];
        ghost var now := store.chunks;
        ChunkTurn(rows[i], nodes);
        if rows[i].parent in tasks {
          SameDemandSameNode(store.tasks[rows[i].parent], tasks[rows[i].parent], nodes);
        }
        assert forall k :: k in ids[..i + 1] <==> k in ids[..i] || k == ids[i];
      }
      assert ids[..|ids|] == ids;
    }

    /** One scheduling cycle. `nodes` is the snapshot it scheduled on. */
    method ScheduleCycle(files: map<string, FileSplitting.Bytes>) returns (ghost nodes: seq<Node>)
      requires Keyed(store.View())
      modifies store
      ensures WorkerSnapshot(old(store.View()), nodes)
      ensures Cycle(old(store.View()), store.View(), nodes, World(files, |OnlineWorkers(old(store.View()))|))
    {
      ghost var was := store.View();
      var ids, rows := store.GetQueuedTasks();
      var chunkIds, chunkRows := store.GetQueuedChunks();
      if |rows| == 0 && |chunkRows| == 0 {
        nodes := SnapshotExists(was);
        NothingToDo(was, ids, chunkIds, nodes, World(files, |OnlineWorkers(was)|));
        return;
      }
      var snapshot := store.GetOnlineWorkerNodes();
      nodes := snapshot;
      if |snapshot| == 0 {
        return;
      }
      var w := World(files, |snapshot|);
      TaskLoop(ids, rows, snapshot, w);
      ghost var middle := store.View();
      TurnsKeepRows(was, ids, rows, middle, snapshot, w);
      ChunkLoop(chunkIds, chunkRows, snapshot, was.tasks);
      CycleComplete(was, middle, store.View(), ids, rows, chunkIds, snapshot, w);
    }

    /** With nothing waiting the cycle that is skipped would have changed nothing. */
    lemma NothingToDo(db: Db, ids: seq<string>, chunkIds: seq<string>, nodes: seq<Node>, w: World)
      requires Keyed(db) && DistinctIds(nodes) && ids == [] && chunkIds == []
      requires Lists(ids, WaitingTasks(db)) && Lists(chunkIds, QueuedChunks(db))
      ensures Cycle(db, db, nodes, w)
    {
      if nodes != [] {
        CycleComplete(db, db, db, ids, [], chunkIds, nodes, w);
      }
    }

    /** After the task loop the old chunk rows stand as they were and the task rows ask for the same. */
    lemma TurnsKeepRows(before: Db, ids: seq<string>, rows: seq<Task>, middle: Db, nodes: seq<Node>, w: World)
      requires Keyed(before) && Lists(ids, WaitingTasks(before)) && RowsOf(before, ids, rows)
      requires RowsAfter(before.tasks, ids, middle.tasks, nodes, w) && TablesAfter(before, rows, middle, nodes, w)
      ensures forall k | k in before.chunks :: k in middle.chunks && middle.chunks[k] == before.chunks[k]
      ensures forall id | id in before.tasks :: SameDemand(middle.tasks[id], before.tasks[id])
    {
      RowsOfIds(before, ids, rows);
      ChunkTableAfterTurns(before, rows, nodes, w);
      forall id | id in before.tasks
        ensures SameDemand(middle.tasks[id], before.tasks[id])
      {
        FinalTaskSameDemand(before.tasks[id], nodes, w);
      }
    }
  }
}
