/** The HTTP handlers that move tasks through their lifecycle (controller/api/tasks.go:45-504), and
    result aggregation (controller/splitter/splitter.go:325-351). */
module Handlers {
  import opened Records
  import opened ChunkIds
  import opened TaskStore

  // ---------- submission ----------

  datatype SubmitRequest = SubmitRequest(
    command: string,
    cpuRequired: int,
    memoryRequired: int,     // already parsed from "4GB" and the like
    priority: string,
    retryMax: int,
    runtime: string,
    dockerImage: string,
    targetNode: string,
    splitStrategy: string,
    inputFile: string,
    splitBy: string,
    chunkSize: int,
    maxNodes: int)

  datatype Reply = Ok | NotFound | BadRequest | InternalError | Panic

  predicate LegalStrategy(s: string) {
    s == "chunk" || s == "map-reduce" || s == "pipeline" || s == "replicated"
  }

  /** The request passes every validation. */
  predicate Acceptable(req: SubmitRequest, db: Db) {
    && req.command != ""
    && (req.priority == "" || LegalPriority(req.priority))
    && (req.runtime == "" || req.runtime == "bare" || (req.runtime == "docker" && req.dockerImage != ""))
    && (req.splitStrategy == "" || LegalStrategy(req.splitStrategy))
    && (req.targetNode == "" || (req.targetNode in db.nodes && db.nodes[req.targetNode].status == Online))
  }

  /** The row a submission creates. */
  function SubmittedRow(req: SubmitRequest, id: string, now: int): Task {
    Task(id, Queued, if req.splitStrategy != "" then Split else Simple, req.splitStrategy, req.command,
         if req.cpuRequired <= 0 then 1 else req.cpuRequired, req.memoryRequired, 0,
         if req.priority == "" then "normal" else req.priority,
         req.retryMax, 0, None, req.targetNode, -1, now, req.inputFile, req.splitBy, req.chunkSize,
         req.maxNodes, false, 1)
  }

  // ---------- what each handler does to the store ----------

  function CancelStep(db: Db, id: string): Db {
    if id in db.tasks && !Terminal(db.tasks[id].status) then SetTaskStatus(db, id, Cancelled) else db
  }

  predicate Retryable(t: Task) {
    t.status == Failed || t.status == Cancelled
  }

  function RetryStep(db: Db, id: string): Db {
    if id in db.tasks && Retryable(db.tasks[id]) then RequeueTask(db, id) else db
  }

  /** The pending chunks of a node whose parent row can be read. */
  function HandedChunksOf(db: Db, nodeId: string): set<string> {
    set id | id in db.chunks && id in PendingChunks(db, nodeId) && db.chunks[id].parent in db.tasks
  }

  /** A poll hands out everything pending for the node and marks it running. */
  ghost predicate PollStep(before: Db, after: Db, nodeId: string) {
    && after.nodes == before.nodes && after.metrics == before.metrics
    && after.tasks.Keys == before.tasks.Keys
    && (forall id | id in before.tasks ::
          after.tasks[id] ==
            if id in PendingTasks(before, nodeId) then before.tasks[id].(status := Running) else before.tasks[id])
    && after.chunks.Keys == before.chunks.Keys
    && (forall id | id in before.chunks ::
          after.chunks[id] ==
            if id in HandedChunksOf(before, nodeId) then before.chunks[id].(status := Running) else before.chunks[id])
  }

  /** A report for a chunk finishes the parent once all its chunks are done; any other ID is taken
      for a task. An ID too short to be classified changes nothing: the handler panics. */
  ghost function ReportStep(db: Db, id: string, status: Status, exitCode: int): Db {
    match IsChunkId(id)
    case None => db
    case Some(false) => FinishTask(db, id, exitCode)
    case Some(true) =>
      var moved := SetChunkStatus(db, id, status, exitCode);
      match ParentOf(id)
      case None => moved
      case Some(parent) => if AllChunksDone(moved, parent) then FinishTask(moved, parent, 0) else moved
  }

  /** A report for a task decides its row by the exit code alone, and touches nothing else. */
  lemma TaskReportMeans(db: Db, id: string, status: Status, exitCode: int)
    requires IsChunkId(id) == Some(false)
    ensures var after := ReportStep(db, id, status, exitCode);
      && after == db.(tasks := after.tasks) && after.tasks.Keys == db.tasks.Keys
      && (forall k | k in db.tasks && k != id :: after.tasks[k] == db.tasks[k])
      && (id in db.tasks ==>
            && (after.tasks[id].status == Completed <==> exitCode == 0)
            && (after.tasks[id].status == Failed <==> exitCode != 0)
            && after.tasks[id] == db.tasks[id].(status := after.tasks[id].status, exitCode := exitCode))
  {
  }

  /** A report for a chunk moves its row to the reported status, and completes the parent exactly when
      then each of the parent's chunks is completed or failed. */
  lemma ChunkReportMeans(db: Db, id: string, status: Status, exitCode: int, parent: string)
    requires IsChunkId(id) == Some(true) && ParentOf(id) == Some(parent)
    requires id in db.chunks && db.chunks[id].parent == parent
    ensures var after := ReportStep(db, id, status, exitCode);
      && after.nodes == db.nodes && after.metrics == db.metrics
      && after.chunks.Keys == db.chunks.Keys && after.tasks.Keys == db.tasks.Keys
      && (forall k | k in db.chunks && k != id :: after.chunks[k] == db.chunks[k])
      && after.chunks[id].status == status
      && (status == Completed || status == Failed ==> after.chunks[id].exitCode == exitCode)
      && (forall t | t in db.tasks && t != parent :: after.tasks[t] == db.tasks[t])
      && (parent in db.tasks ==>
            if forall k | k in after.chunks && after.chunks[k].parent == parent ::
                 after.chunks[k].status == Completed || after.chunks[k].status == Failed
            then after.tasks[parent] == db.tasks[parent].(status := Completed, exitCode := 0)
            else after.tasks[parent] == db.tasks[parent])
  {
    var moved := SetChunkStatus(db, id, status, exitCode);
    DoneIsForAll(moved, parent, id);
    assert ReportStep(db, id, status, exitCode) ==
      if AllChunksDone(moved, parent) then FinishTask(moved, parent, 0) else moved;
  }

  lemma DoneIsForAll(db: Db, parent: string, k: string)
    requires k in db.chunks && db.chunks[k].parent == parent
    ensures AllChunksDone(db, parent) <==>
      forall c | c in db.chunks && db.chunks[c].parent == parent ::
        db.chunks[c].status == Completed || db.chunks[c].status == Failed
  {
  }

  // ---------- the handlers ----------

  class Server {
    const store: Store

    constructor (store: Store)
      ensures this.store == store
    {
      this.store := store;
    }

    /** The validations, in the handler's order. */
    method Validate(req: SubmitRequest) returns (ok: bool)
      ensures ok <==> Acceptable(req, store.View())
    {
      if req.command == "" {
        return false;
      }
      if req.priority != "" && !LegalPriority(req.priority) {
        return false;
      }
      if req.runtime != "" && req.runtime != "bare" && req.runtime != "docker" {
        return false;
      }
      if req.runtime == "docker" && req.dockerImage == "" {
        return false;
      }
      if req.splitStrategy != "" && !LegalStrategy(req.splitStrategy) {
        return false;
      }
      if req.targetNode != "" {
        if req.targetNode !in store.nodes {
          return false;
        }
        if store.nodes[req.targetNode].status != Online {
          return false;
        }
      }
      return true;
    }

    /** `freshId` is the ID CreateTask generates. Only an acceptable request with an unused ID
        changes the store, and then by exactly one queued row. */
    method HandleSubmitTask(req: SubmitRequest, freshId: string, now: int) returns (reply: Reply)
      requires freshId != ""
      modifies store
      ensures reply == Ok <==> Acceptable(req, old(store.View())) && freshId !in old(store.tasks)
      ensures reply == BadRequest <==> !Acceptable(req, old(store.View()))
      ensures reply != Ok ==> store.View() == old(store.View())
      ensures reply == Ok ==> store.View() == CreateTaskRow(old(store.View()), SubmittedRow(req, freshId, now))
      ensures reply == Ok ==> freshId in store.tasks && var t := store.tasks[freshId];
        && t.id == freshId && t.status == Queued && t.retryCount == 0 && t.assignedNode == None && t.createdAt == now
        && t.command == req.command && t.targetNode == req.targetNode && t.retryMax == req.retryMax
        && t.priority == (if req.priority == "" then "normal" else req.priority)
        && t.cpuRequired == (if req.cpuRequired <= 0 then 1 else req.cpuRequired)
        && t.memoryRequired == req.memoryRequired && t.gpuRequired == 0
        && (t.taskType == Split <==> req.splitStrategy != "") && t.splitStrategy == req.splitStrategy
        && t.inputFile == req.inputFile && t.splitBy == req.splitBy
        && t.chunkSize == req.chunkSize && t.maxNodes == req.maxNodes
        && !t.isDistributed && t.worldSize == 1 && t.exitCode == -1
    {
      var ok := Validate(req);
      if !ok {
        return BadRequest;
      }
      var taskType := Simple;
      if req.splitStrategy != "" {
        taskType := Split;
      }
      if freshId in store.tasks {
        return InternalError;
      }
      var row := Task("", Queued, taskType, req.splitStrategy, req.command,
                      if req.cpuRequired <= 0 then 1 else req.cpuRequired, req.memoryRequired, 0,
                      if req.priority == "" then "normal" else req.priority,
                      req.retryMax, 0, None, req.targetNode, -1, 0, req.inputFile, req.splitBy, req.chunkSize,
                      req.maxNodes, false, 0);
      var id := store.CreateTask(row, freshId, now);
      return Ok;
    }

    method HandleCancelTask(id: string) returns (reply: Reply)
      modifies store
      ensures store.View() == CancelStep(old(store.View()), id)
      ensures reply == NotFound <==> id !in old(store.tasks)
      ensures reply == Ok <==> id in old(store.tasks) && !Terminal(old(store.tasks)[id].status)
      ensures reply == BadRequest <==> id in old(store.tasks) && var was := old(store.tasks)[id].status;
        was == Completed || was == Failed || was == Cancelled
      ensures store.tasks == if reply == Ok then old(store.tasks)[id := old(store.tasks)[id].(status := Cancelled)]
        else old(store.tasks)
    {
      if id !in store.tasks {
        return NotFound;
      }
      if Terminal(store.tasks[id].status) {
        return BadRequest;
      }
      store.UpdateTaskStatus(id, Cancelled);
      return Ok;
    }

    method HandleRetryTask(id: string) returns (reply: Reply)
      modifies store
      ensures store.View() == RetryStep(old(store.View()), id)
      ensures reply == NotFound <==> id !in old(store.tasks)
      ensures reply == Ok <==> id in old(store.tasks) && Retryable(old(store.tasks)[id])
      ensures reply == Ok <==> id in old(store.tasks) && var was := old(store.tasks)[id].status;
        was == Failed || was == Cancelled
      ensures reply != Ok ==> store.tasks == old(store.tasks)
      ensures reply == Ok ==>
        && id in store.tasks && store.tasks[id].status == Queued
        && store.tasks[id].retryCount == old(store.tasks)[id].retryCount + 1
        && TextOf(store.tasks[id].assignedNode) == ""
    {
      if id !in store.tasks {
        return NotFound;
      }
      var status := store.tasks[id].status;
      if status != Failed && status != Cancelled {
        return BadRequest;
      }
      store.IncrementTaskRetry(id);
      return Ok;
    }

    /** The executables are the pending tasks, then the pending chunks with a readable parent,
        each of them once. */
    method HandleGetPendingTasks(nodeId: string) returns (tasks: seq<string>, chunks: seq<string>)
      requires Keyed(store.View())
      modifies store
      ensures PollStep(old(store.View()), store.View(), nodeId)
      ensures Lists(tasks, PendingTasks(old(store.View()), nodeId))
      ensures Lists(chunks, HandedChunksOf(old(store.View()), nodeId))
      ensures forall id | id in old(store.tasks) ::
        && id in store.tasks
        && (id in tasks <==>
              old(store.tasks)[id].assignedNode == Some(nodeId) && old(store.tasks)[id].status == Scheduled)
        && store.tasks[id] == if id in tasks then old(store.tasks)[id].(status := Running) else old(store.tasks)[id]
      ensures forall k | k in old(store.chunks) ::
        && k in store.chunks
        && (k in chunks <==>
              && old(store.chunks)[k].assignedNode == Some(nodeId) && old(store.chunks)[k].status == Scheduled
              && old(store.chunks)[k].parent in old(store.tasks))
        && store.chunks[k] == if k in chunks then old(store.chunks)[k].(status := Running) else old(store.chunks)[k]
    {
      ghost var was := store.View();
      var taskIds := store.GetPendingTasksForNode(nodeId);
      var chunkIds := store.GetPendingChunksForNode(nodeId);
      tasks := HandOutTasks(taskIds);
      chunks := HandOutChunks(chunkIds);
      assert HandedChunksOf(was, nodeId) == set id | id in PendingChunks(was, nodeId)
        && was.chunks[id].parent in was.tasks;
      assert forall id | id in was.tasks :: id in taskIds <==> id in PendingTasks(was, nodeId);
      assert forall id | id in was.chunks :: id in chunks <==> id in HandedChunksOf(was, nodeId);
    }

    method HandOutTasks(ids: seq<string>) returns (handed: seq<string>)
      requires forall i | 0 <= i < |ids| :: ids[i] in store.tasks
      modifies store
      ensures handed == ids
      ensures store.View() == old(store.View()).(tasks := store.tasks)
      ensures store.tasks.Keys == old(store.tasks).Keys
      ensures forall id | id in store.tasks ::
        store.tasks[id] == if id in ids then old(store.tasks)[id].(status := Running) else old(store.tasks)[id]
    {
      handed := [];
      for i := 0 to |ids|
        invariant handed == ids[..i]
        invariant store.View() == old(store.View()).(tasks := store.tasks)
        invariant store.tasks.Keys == old(store.tasks).Keys
        invariant forall id | id in store.tasks ::
          store.tasks[id] == if id in ids[..i] then old(store.tasks)[id].(status := Running) else old(store.tasks)[id]
      {
        handed := handed + [ids[i]];
        store.UpdateTaskStatus(ids[i], Running);
        assert forall k :: k in ids[..i + 1] <==> k in ids[..i] || k == ids[i];
      }
      assert ids[..|ids|] == ids;
    }

    method HandOutChunks(ids: seq<string>) returns (handed: seq<string>)
      requires forall i | 0 <= i < |ids| :: ids[i] in store.chunks
      requires forall i, j | 0 <= i < j < |ids| :: ids[i] != ids[j]
      modifies store
      ensures Lists(handed, set id | id in ids && old(store.chunks)[id].parent in old(store.tasks))
      ensures store.View() == old(store.View()).(chunks := store.chunks)
      ensures store.chunks.Keys == old(store.chunks).Keys
      ensures forall id | id in store.chunks ::
        store.chunks[id] == if id in handed then old(store.chunks)[id].(status := Running) else old(store.chunks)[id]
    {
      handed := [];
      for i := 0 to |ids|
        invariant Lists(handed, set id | id in ids[..i] && old(store.chunks)[id].parent in old(store.tasks))
        invariant store.View() == old(store.View()).(chunks := store.chunks)
        invariant store.chunks.Keys == old(store.chunks).Keys
        invariant forall id | id in store.chunks ::
          store.chunks[id] == if id in handed then old(store.chunks)[id].(status := Running) else old(store.chunks)[id]
      {
        assert forall k :: k in ids[..i + 1] <==> k in ids[..i] || k == ids[i];
        assert ids[i] !in ids[..i] && ids[i] !in handed;
        if store.chunks[ids[i]].parent !in store.tasks {
          continue;
        }
        assert forall k :: k in handed + [ids[i]] <==> k in handed || k == ids[i];
        handed := handed + [ids[i]];
        store.UpdateChunkStatus(ids[i], Running, 0);
      }
      assert ids[..|ids|] == ids;
    }

    method HandleTaskResult(id: string, status: Status, exitCode: int) returns (reply: Reply)
      modifies store
      ensures store.View() == ReportStep(old(store.View()), id, status, exitCode)
      ensures reply == Panic <==> |id| < 7
      ensures IsChunkId(id) == Some(false) ==>
        && store.tasks.Keys == old(store.tasks).Keys && store.chunks == old(store.chunks)
        && (forall k | k in store.tasks && k != id :: store.tasks[k] == old(store.tasks)[k])
        && (id in store.tasks ==>
              && (store.tasks[id].status == Completed <==> exitCode == 0)
              && (store.tasks[id].status == Failed <==> exitCode != 0)
              && store.tasks[id] == old(store.tasks)[id].(status := store.tasks[id].status, exitCode := exitCode))
    {
      var kind := IsChunkId(id);
      match kind {
        case None => return Panic;
        case Some(isChunk) =>
          if isChunk {
            store.UpdateChunkStatus(id, status, exitCode);
            var parent := ParentOf(id);
            if parent.Some? {
              var allDone := store.AreAllChunksCompleted(parent.value);
              if allDone {
                store.UpdateTaskResult(parent.value, 0);
              }
            }
          } else {
            store.UpdateTaskResult(id, exitCode);
          }
          return Ok;
      }
    }
  }

  // ---------- aggregation ----------

  /** AggregateResults over the chunks loaded with a task: (complete, failed). */
  method AggregateResults(task: Task, chunks: seq<Chunk>) returns (complete: bool, failed: bool)
    ensures complete <==>
      (task.taskType == Split ==> forall c | c in chunks :: c.status == Completed || c.status == Failed)
    ensures failed <==> task.taskType == Split && complete && exists c :: c in chunks && c.status == Failed
  {
    if task.taskType != Split {
      return true, false;
    }
    var allComplete, anyFailed := true, false;
    for i := 0 to |chunks|
      invariant allComplete <==> forall c | c in chunks[..i] :: Done(c.status)
      invariant anyFailed <==> exists c :: c in chunks[..i] && c.status == Failed
    {
      assert forall c :: c in chunks[..i + 1] <==> c in chunks[..i] || c == chunks[i];
      if chunks[i].status == Failed {
        anyFailed := true;
      }
      if chunks[i].status != Completed && chunks[i].status != Failed {
        allComplete := false;
      }
    }
    assert chunks[..|chunks|] == chunks;
    if !allComplete {
      return false, false;
    }
    return true, anyFailed;
  }

  /** The two-count test of the store is the flag loop of the splitter, except that a split task
      without chunks is complete for the loop and not for the counts. */
  method BothCompletionTests(store: Store, task: Task, chunks: seq<Chunk>) returns (counted: bool, flagged: bool)
    requires task.taskType == Split
    requires forall c :: c in chunks <==> exists id ::
      id in store.chunks && store.chunks[id] == c && c.parent == task.id
    ensures counted <==> flagged && chunks != []
  {
    counted := store.AreAllChunksCompleted(task.id);
    var failed;
    flagged, failed := AggregateResults(task, chunks);
    if chunks != [] {
      assert chunks[0] in chunks;
    }
    if !flagged {
      ghost var d :| d in chunks && !Done(d.status);
    }
    assert forall id | id in store.chunks && store.chunks[id].parent == task.id :: store.chunks[id] in chunks;
  }
}
