/** Parents left behind in the interleaved controller: all their chunks are done, and no handler is going
    to complete them. A parent is left in splitting exactly when the scheduler writes `splitting` over a
    parent whose chunks are all done, and left in the queue exactly by a requeue of such a parent. */
module Stranding {
  import opened Records
  import opened ChunkIds
  import opened TaskStore
  import opened Interleaving

  /** A handler has seen a chunk of the parent reported and will look at its siblings, or has seen them
      all done and will complete the parent. */
  ghost predicate HasFinisher(handlers: seq<Handler>, id: string) {
    exists h :: 0 <= h < |handlers| && Finishes(handlers[h], id)
  }

  predicate Finishes(p: Handler, id: string) {
    p == ChunkReported(id) || p == Calls([Finish(id, 0)])
  }

  /** Where a parent can be left: in splitting, or in the queue. */
  datatype Spot = InSplitting | InQueue

  predicate At(status: Status, spot: Spot) {
    if spot == InQueue then Waiting(status) else status == Splitting
  }

  ghost predicate Finishable(db: Db, id: string, spot: Spot) {
    id in db.tasks && At(db.tasks[id].status, spot) && AllChunksDone(db, id)
  }

  /** With all chunks done, and no handler going to complete it. */
  ghost predicate Left(s: Machine, id: string, spot: Spot) {
    Finishable(s.db, id, spot) && !HasFinisher(s.handlers, id)
  }

  ghost predicate Stranded(s: Machine, id: string) {
    Left(s, id, InSplitting)
  }

  /** The call that puts a task there. */
  predicate Puts(call: Call, id: string, spot: Spot) {
    call == if spot == InQueue then Requeue(id) else SetStatus(id, Splitting)
  }

  /** The step puts the task there: the scheduler after a split, a manual retry, or the sweeper. */
  ghost predicate PutsThere(s: Machine, step: FineStep, id: string, spot: Spot) {
    match step
    case ByScheduler(st) =>
      st == SchedulerCall && s.scheduler.Working? && s.scheduler.todo != [] && Puts(s.scheduler.todo[0], id, spot)
    case ByRequest(st) =>
      && st.HandlerCall? && st.h < |s.handlers| && s.handlers[st.h].Calls? && s.handlers[st.h].todo != []
      && Puts(s.handlers[st.h].todo[0], id, spot)
    case BySweeper(st) =>
      && spot == InQueue && st == SweeperNextTask && s.sweeper.AtTasks? && s.sweeper.tasks != []
      && s.sweeper.tasks[0].id == id && TextOf(s.sweeper.tasks[0].assignedNode) == s.sweeper.nodeId
      && s.sweeper.tasks[0].retryCount < s.sweeper.tasks[0].retryMax
    case NodesChange(_, _) => false
  }

  /** It does so to a task that was elsewhere, has chunks, all of them done, and nobody to complete it. */
  ghost predicate LeavesBehind(s: Machine, step: FineStep, id: string, spot: Spot) {
    && PutsThere(s, step, id, spot)
    && id in s.db.tasks && !At(s.db.tasks[id].status, spot)
    && AllChunksDone(s.db, id) && !HasFinisher(s.handlers, id)
  }

  // ---------- what calls can make finishable ----------

  /** A call that neither puts the parent there nor reports a chunk makes nothing finishable. */
  lemma CallsFinishNothing(db: Db, call: Call, id: string, spot: Spot)
    requires !Puts(call, id, spot)
    requires call.SetStatus? ==> !Waiting(call.status)
    requires call.MoveChunk? ==> !Done(call.status)
    requires call.NewChunk? ==> !Done(StoredChunk(call.chunk).status)
    requires Finishable(Exec(db, call), id, spot)
    ensures Finishable(db, id, spot)
  {
    var after := Exec(db, call);
    if call.NewChunk? || call.PlaceChunk? || call.MoveChunk? {
      NoOpenChunkTouched(db, call, id);
    } else {
      assert after.chunks == db.chunks;
    }
  }

  lemma NoOpenChunkTouched(db: Db, call: Call, id: string)
    requires call.NewChunk? || call.PlaceChunk? || call.MoveChunk?
    requires call.MoveChunk? ==> !Done(call.status)
    requires call.NewChunk? ==> !Done(StoredChunk(call.chunk).status)
    requires AllChunksDone(Exec(db, call), id)
    ensures AllChunksDone(db, id)
  {
    var after := Exec(db, call);
    var c :| c in after.chunks && after.chunks[c].parent == id;
    assert c in db.chunks && db.chunks[c] == after.chunks[c];
    forall k | k in db.chunks && db.chunks[k].parent == id
      ensures Done(db.chunks[k].status)
    {
      assert k in after.chunks && after.chunks[k].parent == id;
    }
  }

  /** What a call makes finishable it puts there, and the chunks were done before. */
  lemma OnlyPutting(db: Db, call: Call, id: string, spot: Spot)
    requires call.SetStatus? ==> !Waiting(call.status)
    requires call.MoveChunk? ==> !Done(call.status)
    requires call.NewChunk? ==> !Done(StoredChunk(call.chunk).status)
    requires Finishable(Exec(db, call), id, spot) && !Finishable(db, id, spot)
    ensures Puts(call, id, spot) && id in db.tasks && !At(db.tasks[id].status, spot) && AllChunksDone(db, id)
  {
    if !Puts(call, id, spot) {
      CallsFinishNothing(db, call, id, spot);
    }
    assert Exec(db, call).chunks == db.chunks;
  }

  /** A finished task is neither in splitting nor in the queue. */
  lemma FinishedIsNeither(db: Db, id: string, exitCode: int, spot: Spot)
    ensures !Finishable(Exec(db, Finish(id, exitCode)), id, spot)
  {
  }

  /** A report can make only the parent of its chunk finishable. */
  lemma ReportFinishesOnlyParent(db: Db, k: string, status: Status, exitCode: int, id: string, spot: Spot)
    requires ChunksOk(db) && (forall t | t in db.tasks :: IsTaskId(t))
    requires Finishable(Exec(db, MoveChunk(k, status, exitCode)), id, spot)
    ensures Finishable(db, id, spot) || ParentOf(k) == Some(id)
  {
    if k in db.chunks && db.chunks[k].parent == id {
      assert NamedChunk(db, db.chunks[k]) && db.chunks[k].id == k;
      var p :| LegalPrefix(p) && k == ChunkId(p, id, db.chunks[k].index);
      RoundTrip(p, id, db.chunks[k].index);
    } else {
      OthersStayDone(db, k, status, exitCode, id);
    }
  }

  lemma OthersStayDone(db: Db, k: string, status: Status, exitCode: int, id: string)
    requires k in db.chunks ==> db.chunks[k].parent != id
    requires AllChunksDone(Exec(db, MoveChunk(k, status, exitCode)), id)
    ensures AllChunksDone(db, id)
  {
    var after := Exec(db, MoveChunk(k, status, exitCode));
    var c :| c in after.chunks && after.chunks[c].parent == id;
    assert c in db.chunks && db.chunks[c].parent == id;
    forall l | l in db.chunks && db.chunks[l].parent == id
      ensures Done(db.chunks[l].status)
    {
      assert l != k && after.chunks[l] == db.chunks[l];
    }
  }

  // ---------- handlers ----------

  lemma FinisherAppended(handlers: seq<Handler>, p: Handler, id: string)
    requires HasFinisher(handlers, id) || Finishes(p, id)
    ensures HasFinisher(handlers + [p], id)
  {
    var after := handlers + [p];
    if h :| 0 <= h < |handlers| && Finishes(handlers[h], id) {
      assert Finishes(after[h], id);
    } else {
      assert after[|handlers|] == p;
    }
  }

  lemma FinisherReplaced(handlers: seq<Handler>, h: nat, p: Handler, id: string)
    requires h < |handlers| && HasFinisher(handlers, id) && (Finishes(handlers[h], id) ==> Finishes(p, id))
    ensures HasFinisher(handlers[h := p], id)
  {
    var g :| 0 <= g < |handlers| && Finishes(handlers[g], id);
    var after := handlers[h := p];
    assert Finishes(after[g], id);
  }

  // ---------- no other step leaves a parent behind ----------

  lemma SchedulerLeaves(s: Machine, step: SchedulerStep, s': Machine, id: string, spot: Spot)
    requires FineInv(s) && SchedulerNext(s, step, s') && Left(s', id, spot) && !Left(s, id, spot)
    ensures LeavesBehind(s, ByScheduler(step), id, spot)
  {
    OnlyCallsChange(s, step, s');
    CallLeaves(s, s.scheduler.todo, s', id, spot);
  }

  lemma CallLeaves(s: Machine, todo: seq<Call>, s': Machine, id: string, spot: Spot)
    requires CallsOk(s.db, todo) && todo != [] && s'.db == Exec(s.db, todo[0]) && s'.handlers == s.handlers
    requires Left(s', id, spot) && !Left(s, id, spot)
    ensures Puts(todo[0], id, spot) && id in s.db.tasks && !At(s.db.tasks[id].status, spot)
    ensures AllChunksDone(s.db, id) && !HasFinisher(s.handlers, id)
  {
    assert ScheduleCallOk(s.db, todo[0]);
    OnlyPutting(s.db, todo[0], id, spot);
  }

  lemma OnlyCallsChange(s: Machine, step: SchedulerStep, s': Machine)
    requires SchedulerNext(s, step, s')
    ensures s'.handlers == s.handlers
    ensures if step == SchedulerCall then
              s.scheduler.Working? && s.scheduler.todo != [] && s'.db == Exec(s.db, s.scheduler.todo[0])
            else s'.db == s.db
  {
  }

  lemma SweeperLeaves(s: Machine, step: SweeperStep, s': Machine, id: string, spot: Spot)
    requires SweeperNext(s, step, s') && Left(s', id, spot) && !Left(s, id, spot)
    ensures LeavesBehind(s, BySweeper(step), id, spot)
  {
    assert step == SweeperNextTask;
    var t := s.sweeper.tasks[0];
    OnlyPutting(s.db, if t.retryCount < t.retryMax then Requeue(t.id) else Finish(t.id, 1), id, spot);
  }

  /** A handler's call takes no finisher away from a parent that is left behind after it. */
  lemma NoFinisherBefore(s: Machine, h: nat, s': Machine, id: string, spot: Spot)
    requires FineInv(s) && RequestNext(s, HandlerCall(h), s') && Left(s', id, spot)
    ensures !HasFinisher(s.handlers, id)
  {
    if HasFinisher(s.handlers, id) {
      if s.handlers[h].todo[0] == Finish(id, 0) {
        FinishedIsNeither(s.db, id, 0, spot);
      } else {
        FinisherReplaced(s.handlers, h, s'.handlers[h], id);
      }
    }
  }

  lemma HandlerCallLeaves(s: Machine, h: nat, s': Machine, id: string, spot: Spot)
    requires FineInv(s) && RequestNext(s, HandlerCall(h), s') && Left(s', id, spot) && !Left(s, id, spot)
    ensures LeavesBehind(s, ByRequest(HandlerCall(h)), id, spot)
  {
    NoFinisherBefore(s, h, s', id, spot);
    assert HandlerOk(s.handlers[h]);
    OnlyPutting(s.db, s.handlers[h].todo[0], id, spot);
  }

  lemma HandOutLeavesNone(s: Machine, h: nat, s': Machine, id: string, spot: Spot)
    requires RequestNext(s, RequestStep.HandOut(h), s') && Left(s', id, spot)
    ensures Left(s, id, spot)
  {
    var p := s.handlers[h];
    var call := if p.taskIds != [] then SetStatus(p.taskIds[0], Running) else MoveChunk(p.chunkIds[0], Running, 0);
    CallsFinishNothing(s.db, call, id, spot);
    if HasFinisher(s.handlers, id) {
      FinisherReplaced(s.handlers, h, s'.handlers[h], id);
    }
  }

  lemma ReportLeavesNone(s: Machine, k: string, status: Status, exitCode: int, s': Machine, id: string, spot: Spot)
    requires FineInv(s) && ReportRead(s, k, status, exitCode, s') && Left(s', id, spot)
    ensures Left(s, id, spot)
  {
    match IsChunkId(k) {
      case None =>
      case Some(false) => CallsFinishNothing(s.db, Finish(k, exitCode), id, spot);
      case Some(true) => ChunkReportLeavesNone(s, k, status, exitCode, s', id, spot);
    }
  }

  lemma ChunkReportLeavesNone(s: Machine, k: string, status: Status, exitCode: int, s': Machine, id: string, spot: Spot)
    requires FineInv(s) && ReportRead(s, k, status, exitCode, s') && IsChunkId(k) == Some(true) && Left(s', id, spot)
    ensures Left(s, id, spot)
  {
    ReportFinishesOnlyParent(s.db, k, status, exitCode, id, spot);
    ReportKeepsFinishers(s, k, status, exitCode, s', id);
  }

  /** A chunk report adds a finisher for the parent of the chunk, and takes none away. */
  lemma ReportKeepsFinishers(s: Machine, k: string, status: Status, exitCode: int, s': Machine, id: string)
    requires ReportRead(s, k, status, exitCode, s') && IsChunkId(k) == Some(true)
    ensures ParentOf(k) == Some(id) || HasFinisher(s.handlers, id) ==> HasFinisher(s'.handlers, id)
  {
    match ParentOf(k) {
      case None => assert s'.handlers == s.handlers;
      case Some(parent) =>
        if parent == id || HasFinisher(s.handlers, id) {
          FinisherAppended(s.handlers, ChunkReported(parent), id);
        }
    }
  }

  lemma CheckLeavesNone(s: Machine, h: nat, s': Machine, id: string, spot: Spot)
    requires RequestNext(s, CheckChunks(h), s') && Left(s', id, spot)
    ensures Left(s, id, spot)
  {
    if HasFinisher(s.handlers, id) {
      FinisherReplaced(s.handlers, h, s'.handlers[h], id);
    }
  }

  /** A new task has no chunks yet. */
  lemma SubmitLeavesNone(s: Machine, row: Task, s': Machine, id: string, spot: Spot)
    requires FineInv(s) && RequestNext(s, RequestStep.Submit(row), s') && Left(s', id, spot)
    ensures Left(s, id, spot)
  {
    assert s'.db.chunks == s.db.chunks;
  }

  lemma ReadLeavesNone(s: Machine, step: RequestStep, s': Machine, id: string, spot: Spot)
    requires RequestNext(s, step, s') && Left(s', id, spot)
    requires step.CancelRead? || step.RetryRead? || step.PollTasks? || step.PollChunks?
    ensures Left(s, id, spot)
  {
    if HasFinisher(s.handlers, id) {
      if step.PollChunks? {
        FinisherReplaced(s.handlers, step.h, s'.handlers[step.h], id);
      } else {
        FinisherAppended(s.handlers, s'.handlers[|s.handlers|], id);
      }
    }
  }

  lemma RequestLeaves(s: Machine, step: RequestStep, s': Machine, id: string, spot: Spot)
    requires FineInv(s) && RequestNext(s, step, s') && Left(s', id, spot) && !Left(s, id, spot)
    ensures LeavesBehind(s, ByRequest(step), id, spot)
  {
    match step {
      case Submit(row) => SubmitLeavesNone(s, row, s', id, spot);
      case HandlerCall(h) => HandlerCallLeaves(s, h, s', id, spot);
      case HandOut(h) => HandOutLeavesNone(s, h, s', id, spot);
      case Report(k, status, exitCode) => ReportLeavesNone(s, k, status, exitCode, s', id, spot);
      case CheckChunks(h) => CheckLeavesNone(s, h, s', id, spot);
      case _ => ReadLeavesNone(s, step, s', id, spot);
    }
  }

  lemma StepLeaves(s: Machine, step: FineStep, s': Machine, id: string, spot: Spot)
    requires FineInv(s) && FineNext(s, step, s') && Left(s', id, spot) && !Left(s, id, spot)
    ensures LeavesBehind(s, step, id, spot)
  {
    match step {
      case ByScheduler(st) => SchedulerLeaves(s, st, s', id, spot);
      case BySweeper(st) => SweeperLeaves(s, st, s', id, spot);
      case ByRequest(st) => RequestLeaves(s, st, s', id, spot);
      case NodesChange(_, _) =>
    }
  }

  // ---------- such a write does ----------

  lemma NoNewFinisher(handlers: seq<Handler>, h: nat, id: string)
    requires h < |handlers| && HasFinisher(handlers[h := Calls([])], id)
    ensures HasFinisher(handlers, id)
  {
    var after := handlers[h := Calls([])];
    var g :| 0 <= g < |after| && Finishes(after[g], id);
    assert g != h && Finishes(handlers[g], id);
  }

  lemma PutThereIsAt(db: Db, id: string, spot: Spot)
    requires id in db.tasks && AllChunksDone(db, id)
    ensures Finishable(Exec(db, if spot == InQueue then Requeue(id) else SetStatus(id, Splitting)), id, spot)
  {
    var after := Exec(db, if spot == InQueue then Requeue(id) else SetStatus(id, Splitting));
    assert after.chunks == db.chunks;
  }

  lemma SchedulerWriteLeaves(s: Machine, step: SchedulerStep, s': Machine, id: string, spot: Spot)
    requires SchedulerNext(s, step, s') && LeavesBehind(s, ByScheduler(step), id, spot)
    ensures Left(s', id, spot)
  {
    PutThereIsAt(s.db, id, spot);
    OnlyCallsChange(s, step, s');
  }

  lemma SweeperWriteLeaves(s: Machine, step: SweeperStep, s': Machine, id: string, spot: Spot)
    requires SweeperNext(s, step, s') && LeavesBehind(s, BySweeper(step), id, spot)
    ensures Left(s', id, spot)
  {
    PutThereIsAt(s.db, id, spot);
  }

  lemma HandlerWriteLeaves(s: Machine, h: nat, s': Machine, id: string, spot: Spot)
    requires FineInv(s) && RequestNext(s, HandlerCall(h), s') && LeavesBehind(s, ByRequest(HandlerCall(h)), id, spot)
    ensures Left(s', id, spot)
  {
    PutThereIsAt(s.db, id, spot);
    assert HandlerOk(s.handlers[h]);
    assert s.handlers[h].todo[1..] == [];
    if HasFinisher(s'.handlers, id) {
      NoNewFinisher(s.handlers, h, id);
    }
  }

  lemma WriteLeaves(s: Machine, step: FineStep, s': Machine, id: string, spot: Spot)
    requires FineInv(s) && FineNext(s, step, s') && LeavesBehind(s, step, id, spot)
    ensures Left(s', id, spot)
  {
    match step {
      case ByScheduler(st) => SchedulerWriteLeaves(s, st, s', id, spot);
      case BySweeper(st) => SweeperWriteLeaves(s, st, s', id, spot);
      case ByRequest(st) => HandlerWriteLeaves(s, st.h, s', id, spot);
    }
  }

  /** In every reachable state a step leaves a parent behind, in splitting or in the queue, if and only if
      it writes that status over a parent that was elsewhere, with all chunks done and no finisher. */
  lemma LeftExactly(s: Machine, step: FineStep, s': Machine, id: string, spot: Spot)
    requires FineInv(s) && FineNext(s, step, s')
    ensures !Left(s, id, spot) && Left(s', id, spot) <==> LeavesBehind(s, step, id, spot)
  {
    if !Left(s, id, spot) && Left(s', id, spot) {
      StepLeaves(s, step, s', id, spot);
    }
    if LeavesBehind(s, step, id, spot) {
      WriteLeaves(s, step, s', id, spot);
    }
  }

  /** In splitting: only the scheduler writes that status. */
  lemma StrandedExactly(s: Machine, step: FineStep, s': Machine, id: string)
    requires FineInv(s) && FineNext(s, step, s')
    ensures !Stranded(s, id) && Stranded(s', id) <==>
      && step == ByScheduler(SchedulerCall) && s.scheduler.todo[0] == SetStatus(id, Splitting)
      && id in s.db.tasks && s.db.tasks[id].status != Splitting
      && AllChunksDone(s.db, id) && !HasFinisher(s.handlers, id)
  {
    LeftExactly(s, step, s', id, InSplitting);
    if step.ByRequest? && step.request.HandlerCall? {
      assert HandlerOk(s.handlers[step.request.h]);
    }
  }

  lemma LeftInRun(run: seq<Machine>, steps: seq<FineStep>, i: nat, id: string, spot: Spot)
    requires IsFineRun(run, steps) && i < |steps|
    ensures !Left(run[i], id, spot) && Left(run[i + 1], id, spot) <==> LeavesBehind(run[i], steps[i], id, spot)
  {
    FineRunKeepsInv(run, steps, i);
    assert FineStepAt(run, steps, i);
    LeftExactly(run[i], steps[i], run[i + 1], id, spot);
  }

  ghost predicate LeftBy(run: seq<Machine>, i: nat, id: string, spot: Spot)
    requires i < |run|
  {
    exists j :: 0 <= j <= i && Left(run[j], id, spot)
  }

  ghost predicate WrittenBefore(run: seq<Machine>, steps: seq<FineStep>, i: nat, id: string, spot: Spot)
    requires i < |run| == |steps| + 1
  {
    exists j :: 0 <= j < i && LeavesBehind(run[j], steps[j], id, spot)
  }

  /** So, interleaved, a run leaves a parent behind at some time if and only if it makes such a write:
      without one the last chunk result never leaves its parent waiting. */
  lemma {:induction false} RunLeavesExactly(run: seq<Machine>, steps: seq<FineStep>, i: nat, id: string, spot: Spot)
    requires IsFineRun(run, steps) && i < |run|
    ensures LeftBy(run, i, id, spot) <==> WrittenBefore(run, steps, i, id, spot)
  {
    if i > 0 {
      RunLeavesExactly(run, steps, i - 1, id, spot);
      LeftInRun(run, steps, i - 1, id, spot);
      assert LeftBy(run, i, id, spot) <==> LeftBy(run, i - 1, id, spot) || Left(run[i], id, spot);
      assert WrittenBefore(run, steps, i, id, spot) <==>
        WrittenBefore(run, steps, i - 1, id, spot) || LeavesBehind(run[i - 1], steps[i - 1], id, spot);
    }
  }
}
