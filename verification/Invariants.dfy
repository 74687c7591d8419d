/** What holds in every run of the controller. */
module Invariants {
  import opened Records
  import opened ChunkIds
  import opened Placement
  import opened SplitPlans
  import opened TaskStore
  import opened Scheduling
  import opened Heartbeats
  import opened Handlers
  import opened Lifecycle

  // ---------- the rows ----------

  /** A split task is never scheduled or running, and neither it nor a waiting task has a node. */
  predicate TaskOk(t: Task) {
    && IsTaskId(t.id) && |t.id| == 13
    && (t.taskType == Split <==> t.splitStrategy != "")
    && t.retryCount >= 0
    && (IsSplit(t) ==> Waiting(t.status) || t.status == Splitting || Terminal(t.status))
    && (Waiting(t.status) || IsSplit(t) ==> TextOf(t.assignedNode) == "")
  }

  /** A chunk is named after an existing parent. */
  ghost predicate ChunkOk(db: Db, c: Chunk) {
    && c.parent in db.tasks
    && (exists p :: LegalPrefix(p) && c.id == ChunkId(p, c.parent, c.index))
    && (c.status == Queued || c.status == Scheduled || c.status == Running || Done(c.status))
  }

  ghost predicate RowsOk(db: Db) {
    && Keyed(db)
    && (forall id | id in db.tasks :: TaskOk(db.tasks[id]))
    && (forall k | k in db.chunks :: ChunkOk(db, db.chunks[k]))
  }

  // ---------- the history ----------

  /** Not handed out since it was last put in the queue. */
  predicate AwaitsHandOut(t: Task) {
    Waiting(t.status) || t.status == Scheduled
  }

  predicate HistoryOk(t: Task, handed: nat, rescheduled: nat) {
    && handed + One(AwaitsHandOut(t)) <= 1 + t.retryCount
    && rescheduled <= t.retryCount && rescheduled <= RetryBudget(t)
    && (IsSplit(t) ==> handed == 0)
  }

  predicate ChunkHistoryOk(c: Chunk, handed: nat) {
    handed + One(c.status == Queued || c.status == Scheduled) <= 1
  }

  ghost predicate Inv(s: System) {
    && RowsOk(s.db)
    && (forall id | id in s.db.tasks :: HistoryOk(s.db.tasks[id], s.handedTasks[id], s.rescheduled[id]))
    && (forall k | k in s.db.chunks :: ChunkHistoryOk(s.db.chunks[k], s.handedChunks[k]))
    && (forall id | id !in s.db.tasks :: s.handedTasks[id] == 0 && s.rescheduled[id] == 0 && s.moves[id] == 0)
    && (forall k | k !in s.db.chunks :: s.handedChunks[k] == 0)
  }

  lemma InvClassifies(s: System)
    requires Inv(s)
    ensures Classified(s)
  {
    forall k | k in s.handedTasks
      ensures IsChunkId(k) == Some(false)
    {
      assert k in s.db.tasks && s.db.tasks[k].id == k;
      TaskIdNotChunk(k);
    }
    forall k | k in s.handedChunks
      ensures IsChunkId(k) == Some(true)
    {
      ChunkRowParsed(s, k);
    }
  }

  /** The ID of every chunk row is recognised and parsed back to its parent. */
  lemma ChunkRowParsed(s: System, k: string)
    requires Inv(s) && (k in s.handedChunks || k in s.db.chunks)
    ensures k in s.db.chunks && IsChunkId(k) == Some(true) && ParentOf(k) == Some(s.db.chunks[k].parent)
  {
    assert k in s.db.chunks;
    var c := s.db.chunks[k];
    assert ChunkOk(s.db, c) && c.id == k;
    var p :| LegalPrefix(p) && c.id == ChunkId(p, c.parent, c.index);
    assert TaskOk(s.db.tasks[c.parent]) && s.db.tasks[c.parent].id == c.parent;
    RoundTrip(p, c.parent, c.index);
  }

  // ---------- one row, one change ----------

  lemma TaskOkKept(t: Task, ch: Change, handed: nat)
    requires TaskOk(t) && Allowed(t, ch, handed) && (IsSplit(t) ==> handed == 0)
    ensures TaskOk(Changed(t, ch))
  {
  }

  lemma HistoryKept(t: Task, ch: Change, handed: nat, rescheduled: nat)
    requires TaskOk(t) && HistoryOk(t, handed, rescheduled) && Allowed(t, ch, handed)
    ensures HistoryOk(Changed(t, ch), handed + One(ch == HandOut),
                      rescheduled + One(ch == Rescue && t.retryCount < t.retryMax))
  {
  }

  lemma ChunkHistoryKept(c: Chunk, ch: ChunkChange, handed: nat)
    requires ChunkHistoryOk(c, handed) && ChunkAllowed(c, ch, handed)
    ensures ChunkHistoryOk(ChunkChanged(c, ch), handed + One(ch == ChunkHandOut))
  {
  }

  // ---------- the effect of a step, row by row ----------

  /** The change of every row. */
  datatype Delta = Delta(tasks: map<string, Change>, chunks: map<string, ChunkChange>)

  ghost predicate TaskEffect(s: System, d: Delta, s': System) {
    && d.tasks.Keys == s.db.tasks.Keys
    && forall id | id in s.db.tasks ::
         && id in s'.db.tasks
         && s'.db.tasks[id] == Changed(s.db.tasks[id], d.tasks[id])
         && Allowed(s.db.tasks[id], d.tasks[id], s.handedTasks[id])
  }

  ghost predicate CounterEffect(s: System, d: Delta, s': System) {
    && d.tasks.Keys == s.db.tasks.Keys
    && (forall id | id in s.db.tasks ::
          && s'.handedTasks[id] == s.handedTasks[id] + One(d.tasks[id] == HandOut)
          && s'.rescheduled[id] == s.rescheduled[id] +
               One(d.tasks[id] == Rescue && s.db.tasks[id].retryCount < s.db.tasks[id].retryMax))
    && (forall id | id !in s.db.tasks ::
          s'.handedTasks[id] == s.handedTasks[id] && s'.rescheduled[id] == s.rescheduled[id]
            && s'.moves[id] == s.moves[id])
  }

  ghost predicate NewTaskEffect(s: System, s': System) {
    forall id | id in s'.db.tasks && id !in s.db.tasks :: s'.db.tasks[id].id == id && FreshRow(s'.db.tasks[id])
  }

  ghost predicate ChunkEffect(s: System, d: Delta, s': System) {
    && d.chunks.Keys == s.db.chunks.Keys
    && (forall k | k in s.db.chunks ::
          && k in s'.db.chunks
          && s'.db.chunks[k] == ChunkChanged(s.db.chunks[k], d.chunks[k])
          && ChunkAllowed(s.db.chunks[k], d.chunks[k], s.handedChunks[k])
          && s'.handedChunks[k] == s.handedChunks[k] + One(d.chunks[k] == ChunkHandOut))
    && (forall k | k !in s.db.chunks :: s'.handedChunks[k] == s.handedChunks[k])
  }

  /** A new chunk row belongs to a task that was waiting and that changes in this step. */
  ghost predicate NewChunkOk(s: System, d: Delta, k: string, c: Chunk) {
    && c.id == k && c.parent in s.db.tasks && c.parent in d.tasks
    && Waiting(s.db.tasks[c.parent].status) && d.tasks[c.parent] != Stay
    && (exists p :: LegalPrefix(p) && k == ChunkId(p, c.parent, c.index))
    && (IsSplit(s.db.tasks[c.parent]) ==> c.status == Queued)
    && (c.status == Queued || c.status == Scheduled)
  }

  ghost predicate NewChunkEffect(s: System, d: Delta, s': System) {
    forall k | k in s'.db.chunks && k !in s.db.chunks :: NewChunkOk(s, d, k, s'.db.chunks[k])
  }

  /** A parent is finished by AllDone only when all its chunks are done, and a chunk that becomes done
      finishes its parent unless another one is open. */
  ghost predicate CompletionEffect(s: System, d: Delta, s': System) {
    && (forall id | id in d.tasks && d.tasks[id] == AllDone :: AllChunksDone(s'.db, id))
    && (forall k | k in s.db.chunks && k in s'.db.chunks && !Done(s.db.chunks[k].status)
      && Done(s'.db.chunks[k].status) ::
          var parent := s.db.chunks[k].parent;
          HasOpenChunk(s'.db, parent) || (parent in d.tasks && d.tasks[parent] == AllDone))
  }

  ghost predicate HasChunk(db: Db, id: string) {
    exists k :: k in db.chunks && db.chunks[k].parent == id
  }

  ghost predicate HasOpenChunk(db: Db, id: string) {
    exists k :: k in db.chunks && db.chunks[k].parent == id && !Done(db.chunks[k].status)
  }

  ghost predicate Effect(s: System, d: Delta, s': System) {
    && TaskEffect(s, d, s') && CounterEffect(s, d, s') && NewTaskEffect(s, s')
    && ChunkEffect(s, d, s') && NewChunkEffect(s, d, s') && CompletionEffect(s, d, s')
    && (forall id | id in s'.db.nodes :: s'.db.nodes[id].id == id)
  }

  ghost function DeltaOf(s: System, step: Step): Delta {
    Delta(map id | id in s.db.tasks :: ChangeOf(s, step, id), map k | k in s.db.chunks :: ChunkChangeOf(s, step, k))
  }

  lemma StepTaskEffect(s: System, step: Step, s': System)
    requires Inv(s) && Next(s, step, s')
    ensures TaskEffect(s, DeltaOf(s, step), s')
    ensures CounterEffect(s, DeltaOf(s, step), s')
  {
    InvClassifies(s);
    forall id | id in s.db.tasks
      ensures id in s'.db.tasks && s'.db.tasks[id] == Changed(s.db.tasks[id], ChangeOf(s, step, id))
      ensures Allowed(s.db.tasks[id], ChangeOf(s, step, id), s.handedTasks[id])
    {
      RowChanges(s, step, s', id);
    }
    StepCounters(s, step, s');
  }

  lemma StepCounters(s: System, step: Step, s': System)
    requires Next(s, step, s')
    ensures CounterEffect(s, DeltaOf(s, step), s')
  {
    forall id
      ensures id in s.db.tasks ==>
        && s'.handedTasks[id] == s.handedTasks[id] + One(ChangeOf(s, step, id) == HandOut)
        && s'.rescheduled[id] == s.rescheduled[id] +
             One(ChangeOf(s, step, id) == Rescue && s.db.tasks[id].retryCount < s.db.tasks[id].retryMax)
      ensures id !in s.db.tasks ==>
        s'.handedTasks[id] == s.handedTasks[id] && s'.rescheduled[id] == s.rescheduled[id]
          && s'.moves[id] == s.moves[id]
    {
      if id in s.db.tasks {
        CounterChanges(s, step, s', id);
      } else {
        CountersOnlyForTasks(s, step, s', id);
      }
    }
  }

  lemma StepNewTasks(s: System, step: Step, s': System)
    requires Next(s, step, s')
    ensures NewTaskEffect(s, s')
  {
    forall id | id in s'.db.tasks && id !in s.db.tasks
      ensures s'.db.tasks[id].id == id && FreshRow(s'.db.tasks[id])
    {
      NewTasks(s, step, s', id);
    }
  }

  lemma StepChunkEffect(s: System, step: Step, s': System)
    requires Inv(s) && Next(s, step, s')
    ensures ChunkEffect(s, DeltaOf(s, step), s')
  {
    InvClassifies(s);
    StepOldChunks(s, step, s');
    StepChunkCounters(s, step, s');
  }

  lemma StepOldChunks(s: System, step: Step, s': System)
    requires Classified(s) && Next(s, step, s')
    ensures forall k | k in s.db.chunks ::
      && k in s'.db.chunks && s'.db.chunks[k] == ChunkChanged(s.db.chunks[k], ChunkChangeOf(s, step, k))
      && ChunkAllowed(s.db.chunks[k], ChunkChangeOf(s, step, k), s.handedChunks[k])
  {
    forall k | k in s.db.chunks
      ensures k in s'.db.chunks && s'.db.chunks[k] == ChunkChanged(s.db.chunks[k], ChunkChangeOf(s, step, k))
      ensures ChunkAllowed(s.db.chunks[k], ChunkChangeOf(s, step, k), s.handedChunks[k])
    {
      ChunkRowChanges(s, step, s', k);
    }
  }

  lemma StepChunkCounters(s: System, step: Step, s': System)
    requires Next(s, step, s')
    ensures forall k | k in s.db.chunks ::
      s'.handedChunks[k] == s.handedChunks[k] + One(ChunkChangeOf(s, step, k) == ChunkHandOut)
    ensures forall k | k !in s.db.chunks :: s'.handedChunks[k] == s.handedChunks[k]
  {
    forall k
      ensures k in s.db.chunks ==>
        s'.handedChunks[k] == s.handedChunks[k] + One(ChunkChangeOf(s, step, k) == ChunkHandOut)
      ensures k !in s.db.chunks ==> s'.handedChunks[k] == s.handedChunks[k]
    {
      if k in s.db.chunks {
        ChunkCounterChanges(s, step, s', k);
      } else {
        ChunkCountersOnlyForChunks(s, step, s', k);
      }
    }
  }

  lemma StepNewChunks(s: System, step: Step, s': System)
    requires Inv(s) && Next(s, step, s')
    ensures NewChunkEffect(s, DeltaOf(s, step), s')
  {
    forall k | k in s'.db.chunks && k !in s.db.chunks
      ensures NewChunkOk(s, DeltaOf(s, step), k, s'.db.chunks[k])
    {
      NewChunkRows(s, step, s', k);
    }
  }

  lemma OnlyReportCompletes(s: System, step: Step, id: string)
    requires id in s.db.tasks && ChangeOf(s, step, id) == AllDone
    ensures step.Report? && IsChunkId(step.itemId) == Some(true) && ParentOf(step.itemId) == Some(id)
    ensures AllChunksDone(SetChunkStatus(s.db, step.itemId, step.status, step.exitCode), id)
  {
  }

  lemma AllDoneMeansDone(s: System, step: Step, s': System, id: string)
    requires StoreStep(s, step, s'.db) && id in s.db.tasks && ChangeOf(s, step, id) == AllDone
    ensures AllChunksDone(s'.db, id)
  {
    OnlyReportCompletes(s, step, id);
    ReportCases(s.db, step.itemId, step.status, step.exitCode);
    var moved := SetChunkStatus(s.db, step.itemId, step.status, step.exitCode);
    assert s'.db.chunks == moved.chunks;
  }

  lemma ClosedByReport(s: System, step: Step, k: string)
    requires k in s.db.chunks && !Done(s.db.chunks[k].status)
    requires Done(ChunkChanged(s.db.chunks[k], ChunkChangeOf(s, step, k)).status)
    ensures step.Report? && step.itemId == k && IsChunkId(k) == Some(true)
  {
  }

  /** The report that closes the last open chunk of a parent finishes the parent. */
  lemma ClosingFinishesParent(s: System, step: Step, s': System, k: string)
    requires Inv(s) && StoreStep(s, step, s'.db) && k in s.db.chunks && !Done(s.db.chunks[k].status)
    requires step.Report? && step.itemId == k
    ensures HasOpenChunk(s'.db, s.db.chunks[k].parent) || ChangeOf(s, step, s.db.chunks[k].parent) == AllDone
  {
    ChunkRowParsed(s, k);
    ReportLeavesOpen(s.db, k, step.status, step.exitCode, s.db.chunks[k].parent);
  }

  lemma ReportLeavesOpen(db: Db, k: string, status: Status, exitCode: int, parent: string)
    requires k in db.chunks && db.chunks[k].parent == parent
    requires IsChunkId(k) == Some(true) && ParentOf(k) == Some(parent)
    ensures HasOpenChunk(ReportStep(db, k, status, exitCode), parent)
      || AllChunksDone(SetChunkStatus(db, k, status, exitCode), parent)
  {
    var after, moved := ReportStep(db, k, status, exitCode), SetChunkStatus(db, k, status, exitCode);
    ReportCases(db, k, status, exitCode);
    assert k in moved.chunks && moved.chunks[k].parent == parent;
    if !AllChunksDone(moved, parent) {
      var l :| l in moved.chunks && moved.chunks[l].parent == parent && !Done(moved.chunks[l].status);
      assert l in after.chunks && after.chunks[l].parent == parent && !Done(after.chunks[l].status);
    }
  }

  lemma StepCompletion(s: System, step: Step, s': System)
    requires Inv(s) && Next(s, step, s') && ChunkEffect(s, DeltaOf(s, step), s')
    ensures CompletionEffect(s, DeltaOf(s, step), s')
  {
    var d := DeltaOf(s, step);
    forall id | id in d.tasks && d.tasks[id] == AllDone
      ensures AllChunksDone(s'.db, id)
    {
      AllDoneMeansDone(s, step, s', id);
    }
    forall k | k in s.db.chunks && k in s'.db.chunks && !Done(s.db.chunks[k].status) && Done(s'.db.chunks[k].status)
      ensures var parent := s.db.chunks[k].parent;
        HasOpenChunk(s'.db, parent) || (parent in d.tasks && d.tasks[parent] == AllDone)
    {
      assert ChunkOk(s.db, s.db.chunks[k]);
      ClosedByReport(s, step, k);
      ClosingFinishesParent(s, step, s', k);
    }
  }

  lemma StepNodes(s: System, step: Step, s': System)
    requires Keyed(s.db) && StoreStep(s, step, s'.db)
    ensures forall id | id in s'.db.nodes :: s'.db.nodes[id].id == id
  {
    if step.Report? {
      ReportCases(s.db, step.itemId, step.status, step.exitCode);
    }
  }

  lemma StepEffect(s: System, step: Step, s': System)
    requires Inv(s) && Next(s, step, s')
    ensures Effect(s, DeltaOf(s, step), s')
  {
    StepTaskEffect(s, step, s');
    StepNewTasks(s, step, s');
    StepChunkEffect(s, step, s');
    StepNewChunks(s, step, s');
    StepCompletion(s, step, s');
    StepNodes(s, step, s');
  }

  /** Only a Retry step retries. */
  ghost predicate NoManualRetry(d: Delta) {
    forall id | id in d.tasks :: d.tasks[id] != ManualRetry
  }

  lemma OnlyRetryRetries(s: System, step: Step)
    requires !step.Retry?
    ensures NoManualRetry(DeltaOf(s, step))
  {
    forall id | id in s.db.tasks
      ensures ChangeOf(s, step, id) != ManualRetry
    {
      OnlyPollHandsOut(s, step, id);
    }
  }

  // ---------- every step keeps the invariant ----------

  lemma TaskRowKept(s: System, d: Delta, s': System, id: string)
    requires Inv(s) && TaskEffect(s, d, s') && CounterEffect(s, d, s') && NewTaskEffect(s, s') && id in s'.db.tasks
    ensures s'.db.tasks[id].id == id && TaskOk(s'.db.tasks[id])
    ensures HistoryOk(s'.db.tasks[id], s'.handedTasks[id], s'.rescheduled[id])
  {
    if id in s.db.tasks {
      TaskOkKept(s.db.tasks[id], d.tasks[id], s.handedTasks[id]);
      HistoryKept(s.db.tasks[id], d.tasks[id], s.handedTasks[id], s.rescheduled[id]);
    }
  }

  lemma ChunkRowKept(s: System, d: Delta, s': System, k: string)
    requires Inv(s) && TaskEffect(s, d, s') && ChunkEffect(s, d, s') && NewChunkEffect(s, d, s') && k in s'.db.chunks
    ensures s'.db.chunks[k].id == k && ChunkOk(s'.db, s'.db.chunks[k])
    ensures ChunkHistoryOk(s'.db.chunks[k], s'.handedChunks[k])
  {
    if k in s.db.chunks {
      assert ChunkOk(s.db, s.db.chunks[k]);
      ChunkHistoryKept(s.db.chunks[k], d.chunks[k], s.handedChunks[k]);
    } else {
      assert NewChunkOk(s, d, k, s'.db.chunks[k]);
    }
  }

  lemma InvKept(s: System, d: Delta, s': System)
    requires Inv(s) && Effect(s, d, s')
    ensures Inv(s')
  {
    forall id | id in s'.db.tasks
      ensures s'.db.tasks[id].id == id && TaskOk(s'.db.tasks[id])
      ensures HistoryOk(s'.db.tasks[id], s'.handedTasks[id], s'.rescheduled[id])
    {
      TaskRowKept(s, d, s', id);
    }
    forall k | k in s'.db.chunks
      ensures s'.db.chunks[k].id == k && ChunkOk(s'.db, s'.db.chunks[k])
      ensures ChunkHistoryOk(s'.db.chunks[k], s'.handedChunks[k])
    {
      ChunkRowKept(s, d, s', k);
    }
  }

  lemma {:induction false} RunKeepsInv(run: seq<System>, steps: seq<Step>, i: nat)
    requires IsRun(run, steps) && i < |run|
    ensures Inv(run[i])
  {
    if i > 0 {
      RunKeepsInv(run, steps, i - 1);
      RunStep(run, steps, i - 1);
      InvKept(run[i - 1], DeltaOf(run[i - 1], steps[i - 1]), run[i]);
    }
  }

  /** The effect of step i of a run. */
  lemma RunStep(run: seq<System>, steps: seq<Step>, i: nat)
    requires IsRun(run, steps) && i < |steps| && Inv(run[i])
    ensures Effect(run[i], DeltaOf(run[i], steps[i]), run[i + 1])
  {
    assert StepAt(run, steps, i);
    StepEffect(run[i], steps[i], run[i + 1]);
  }

  /** In every run a task has been handed to agents at most retry_count + 1 times and every chunk at
      most once; and a task that awaits handing out has one of these left. */
  lemma HandOutBound(run: seq<System>, steps: seq<Step>, i: nat)
    requires IsRun(run, steps) && i < |run|
    ensures var s := run[i];
      && (forall id | id in s.db.tasks ::
            s.handedTasks[id] + One(AwaitsHandOut(s.db.tasks[id])) <= s.db.tasks[id].retryCount + 1)
      && (forall k | k in s.db.chunks :: s.handedChunks[k] <= 1)
      && (forall k :: k in s.handedTasks ==> k in s.db.tasks)
      && (forall k :: k in s.handedChunks ==> k in s.db.chunks)
  {
    RunKeepsInv(run, steps, i);
  }

  /** In every run a report for a task decides its row by the exit code alone: completed exactly for code 0,
      failed exactly for any other, whatever status the agent names. */
  lemma ReportDecides(run: seq<System>, steps: seq<Step>, i: nat, id: string)
    requires IsRun(run, steps) && i < |steps| && steps[i].Report? && steps[i].itemId == id && id in run[i].handedTasks
    ensures id in run[i].db.tasks && id in run[i + 1].db.tasks
    ensures var t, code := run[i + 1].db.tasks[id], steps[i].exitCode;
      && (t.status == Completed <==> code == 0) && (t.status == Failed <==> code != 0)
      && t == run[i].db.tasks[id].(status := t.status, exitCode := code)
  {
    ReportKnown(run, steps, i, id);
    assert StepAt(run, steps, i);
    TaskReportMeans(run[i].db, id, steps[i].status, steps[i].exitCode);
  }

  lemma ReportKnown(run: seq<System>, steps: seq<Step>, i: nat, id: string)
    requires IsRun(run, steps) && i < |run| && id in run[i].handedTasks
    ensures id in run[i].db.tasks && IsChunkId(id) == Some(false)
  {
    RunKeepsInv(run, steps, i);
    InvClassifies(run[i]);
  }

  /** In every run no sweep touches the row of a node that it last heard from at most 30 seconds ago. */
  lemma HeardFromStaysOnline(run: seq<System>, steps: seq<Step>, i: nat, id: string)
    requires IsRun(run, steps) && i < |steps| && steps[i].SweepNodes? && id in run[i].db.nodes
    requires steps[i].now - run[i].db.nodes[id].lastHeartbeat <= 30_000_000_000
    ensures id in run[i + 1].db.nodes && run[i + 1].db.nodes[id] == run[i].db.nodes[id]
    ensures forall t | t in run[i].db.tasks && run[i].db.tasks[t].assignedNode == Some(id) ::
      t in run[i + 1].db.tasks && run[i + 1].db.tasks[t] == run[i].db.tasks[t]
  {
    assert StepAt(run, steps, i);
    SweepByTheClock(run[i].db, run[i + 1].db, steps[i].now);
  }

  /** In every run the automatic reschedules of a task stay within max(retry_max, 0). */
  lemma RescheduleBound(run: seq<System>, steps: seq<Step>, i: nat, id: string)
    requires IsRun(run, steps) && i < |run| && id in run[i].db.tasks
    ensures run[i].rescheduled[id] <= if run[i].db.tasks[id].retryMax > 0 then run[i].db.tasks[id].retryMax else 0
  {
    RunKeepsInv(run, steps, i);
  }

  // ---------- tasks that are not handed out themselves ----------

  /** A split task, or (where `gangs` is set) a gang: only its chunks are handed out. */
  predicate LivesOnChunks(t: Task, gangs: bool) {
    IsSplit(t) || (gangs && IsGang(t))
  }

  /** A poll that names no node would find a retried gang, whose node is the empty text. */
  predicate NamesNode(step: Step) {
    step.Poll? ==> step.nodeId != ""
  }

  ghost predicate GangsOk(s: System) {
    forall id | id in s.db.tasks && IsGang(s.db.tasks[id]) :: GangOk(s.db.tasks[id], s.handedTasks[id])
  }

  predicate GangOk(t: Task, handed: nat) {
    handed == 0 && TextOf(t.assignedNode) == ""
    && (Waiting(t.status) || t.status == Scheduled || Terminal(t.status))
  }

  lemma GangOkKept(t: Task, ch: Change)
    requires IsGang(t) && GangOk(t, 0) && Allowed(t, ch, 0) && ch != HandOut
    ensures IsGang(Changed(t, ch)) && GangOk(Changed(t, ch), 0)
  {
  }

  lemma StaysGang(t: Task, ch: Change)
    ensures IsGang(Changed(t, ch)) <==> IsGang(t)
    ensures IsSplit(Changed(t, ch)) <==> IsSplit(t)
  {
  }

  lemma NamedPollsSkipGangs(s: System, step: Step, id: string)
    requires GangsOk(s) && NamesNode(step) && id in s.db.tasks && IsGang(s.db.tasks[id])
    ensures DeltaOf(s, step).tasks[id] != HandOut
  {
    OnlyPollHandsOut(s, step, id);
  }

  lemma GangRowKept(s: System, d: Delta, s': System, id: string)
    requires GangsOk(s) && TaskEffect(s, d, s') && CounterEffect(s, d, s')
    requires id in s.db.tasks && IsGang(s'.db.tasks[id]) && d.tasks[id] != HandOut
    ensures GangOk(s'.db.tasks[id], s'.handedTasks[id])
  {
    StaysGang(s.db.tasks[id], d.tasks[id]);
    GangOkKept(s.db.tasks[id], d.tasks[id]);
  }

  lemma GangsOkKept(s: System, d: Delta, s': System)
    requires Inv(s) && Effect(s, d, s') && GangsOk(s)
    requires forall id | id in s.db.tasks && IsGang(s.db.tasks[id]) :: d.tasks[id] != HandOut
    ensures GangsOk(s')
  {
    forall id | id in s'.db.tasks && IsGang(s'.db.tasks[id])
      ensures GangOk(s'.db.tasks[id], s'.handedTasks[id])
    {
      if id in s.db.tasks {
        StaysGang(s.db.tasks[id], d.tasks[id]);
        GangRowKept(s, d, s', id);
      }
    }
  }

  lemma {:induction false} RunKeepsGangs(run: seq<System>, steps: seq<Step>, i: nat)
    requires IsRun(run, steps) && i < |run| && forall j | 0 <= j < i :: NamesNode(steps[j])
    ensures GangsOk(run[i])
  {
    if i > 0 {
      RunKeepsGangs(run, steps, i - 1);
      GangsOkInRun(run, steps, i - 1);
    }
  }

  lemma GangsOkInRun(run: seq<System>, steps: seq<Step>, i: nat)
    requires IsRun(run, steps) && i < |steps| && GangsOk(run[i]) && NamesNode(steps[i])
    ensures GangsOk(run[i + 1])
  {
    RunKeepsInv(run, steps, i);
    RunStep(run, steps, i);
    forall id | id in run[i].db.tasks && IsGang(run[i].db.tasks[id])
      ensures DeltaOf(run[i], steps[i]).tasks[id] != HandOut
    {
      NamedPollsSkipGangs(run[i], steps[i], id);
    }
    GangsOkKept(run[i], DeltaOf(run[i], steps[i]), run[i + 1]);
  }

  /** How the row of such a task changes: it was never handed out, it is completed only by its last
      chunk, and once completed it stays so. */
  lemma ParentRow(s: System, d: Delta, s': System, id: string, gangs: bool)
    requires Inv(s) && (gangs ==> GangsOk(s)) && TaskEffect(s, d, s')
    requires id in s.db.tasks && id in s'.db.tasks && LivesOnChunks(s'.db.tasks[id], gangs)
    ensures LivesOnChunks(s.db.tasks[id], gangs) && s.handedTasks[id] == 0
    ensures s.db.tasks[id].status == Completed ==> s'.db.tasks[id].status == Completed
    ensures s'.db.tasks[id].status == Completed ==> d.tasks[id] == AllDone || s.db.tasks[id].status == Completed
    ensures s.db.tasks[id].status == Splitting ==>
      d.tasks[id] == Stay || d.tasks[id] == CancelIt || d.tasks[id] == AllDone
  {
    StaysGang(s.db.tasks[id], d.tasks[id]);
    assert HistoryOk(s.db.tasks[id], s.handedTasks[id], s.rescheduled[id]) && TaskOk(s.db.tasks[id]);
    ParentRowChange(s.db.tasks[id], d.tasks[id]);
  }

  lemma ParentRowChange(t: Task, ch: Change)
    requires TaskOk(t) && Allowed(t, ch, 0) && (IsSplit(t) || (IsGang(t) && GangOk(t, 0)))
    ensures t.status == Completed ==> Changed(t, ch).status == Completed
    ensures Changed(t, ch).status == Completed ==> ch == AllDone || t.status == Completed
    ensures t.status == Splitting ==> ch == Stay || ch == CancelIt || ch == AllDone
  {
  }

  // ---------- completed parents ----------

  ghost predicate ParentsComplete(db: Db, gangs: bool) {
    forall id | id in db.tasks && LivesOnChunks(db.tasks[id], gangs) && db.tasks[id].status == Completed ::
      AllChunksDone(db, id)
  }

  /** Done chunks stay done, and no chunk is added to a parent that is not waiting. */
  lemma ChunksStayDone(s: System, d: Delta, s': System, id: string)
    requires ChunkEffect(s, d, s') && NewChunkEffect(s, d, s') && id in s.db.tasks && !Waiting(s.db.tasks[id].status)
    requires AllChunksDone(s.db, id)
    ensures AllChunksDone(s'.db, id)
  {
    var c :| c in s.db.chunks && s.db.chunks[c].parent == id;
    assert c in s'.db.chunks && s'.db.chunks[c].parent == id;
    forall k | k in s'.db.chunks && s'.db.chunks[k].parent == id
      ensures Done(s'.db.chunks[k].status)
    {
      ChunkStaysDone(s, d, s', k);
    }
  }

  lemma ChunkStaysDone(s: System, d: Delta, s': System, k: string)
    requires ChunkEffect(s, d, s') && NewChunkEffect(s, d, s') && k in s'.db.chunks
    requires var id := s'.db.chunks[k].parent;
      id in s.db.tasks && !Waiting(s.db.tasks[id].status) && AllChunksDone(s.db, id)
    ensures Done(s'.db.chunks[k].status)
  {
    assert k in s.db.chunks && s.db.chunks[k].parent == s'.db.chunks[k].parent;
  }

  lemma CompletedIsOld(s: System, s': System, id: string)
    requires NewTaskEffect(s, s') && id in s'.db.tasks && s'.db.tasks[id].status == Completed
    ensures id in s.db.tasks
  {
  }

  /** A parent is completed by its last chunk, or was completed with all its chunks done. */
  lemma CompletedHow(s: System, d: Delta, s': System, id: string, gangs: bool)
    requires Inv(s) && (gangs ==> GangsOk(s)) && TaskEffect(s, d, s') && ParentsComplete(s.db, gangs)
    requires id in s.db.tasks && id in s'.db.tasks
    requires LivesOnChunks(s'.db.tasks[id], gangs) && s'.db.tasks[id].status == Completed
    ensures d.tasks[id] == AllDone || (s.db.tasks[id].status == Completed && AllChunksDone(s.db, id))
  {
    ParentRow(s, d, s', id, gangs);
  }

  lemma CompletedParentKept(s: System, d: Delta, s': System, id: string)
    requires ChunkEffect(s, d, s') && NewChunkEffect(s, d, s') && CompletionEffect(s, d, s') && id in s.db.tasks
    requires id in d.tasks
    requires d.tasks[id] == AllDone || (s.db.tasks[id].status == Completed && AllChunksDone(s.db, id))
    ensures AllChunksDone(s'.db, id)
  {
    if d.tasks[id] != AllDone {
      ChunksStayDone(s, d, s', id);
    }
  }

  lemma ParentsCompleteKept(s: System, d: Delta, s': System, gangs: bool)
    requires Inv(s) && (gangs ==> GangsOk(s)) && Effect(s, d, s') && ParentsComplete(s.db, gangs)
    ensures ParentsComplete(s'.db, gangs)
  {
    forall id | id in s'.db.tasks && LivesOnChunks(s'.db.tasks[id], gangs) && s'.db.tasks[id].status == Completed
      ensures AllChunksDone(s'.db, id)
    {
      CompletedIsOld(s, s', id);
      CompletedHow(s, d, s', id, gangs);
      CompletedParentKept(s, d, s', id);
    }
  }

  lemma {:induction false} RunCompletesByChunks(run: seq<System>, steps: seq<Step>, i: nat, gangs: bool)
    requires IsRun(run, steps) && i < |run| && (gangs ==> forall j | 0 <= j < i :: NamesNode(steps[j]))
    ensures ParentsComplete(run[i].db, gangs)
  {
    if i > 0 {
      RunCompletesByChunks(run, steps, i - 1, gangs);
      if gangs { RunKeepsGangs(run, steps, i - 1); }
      NextCompletesByChunks(run, steps, i - 1, gangs);
    }
  }

  lemma NextCompletesByChunks(run: seq<System>, steps: seq<Step>, i: nat, gangs: bool)
    requires IsRun(run, steps) && i < |steps| && (gangs ==> GangsOk(run[i])) && ParentsComplete(run[i].db, gangs)
    ensures ParentsComplete(run[i + 1].db, gangs)
  {
    RunKeepsInv(run, steps, i);
    RunStep(run, steps, i);
    ParentsCompleteKept(run[i], DeltaOf(run[i], steps[i]), run[i + 1], gangs);
  }

  /** In every run a completed split parent has at least one chunk and all of them are completed or
      failed. */
  lemma CompletedParentsAreDone(run: seq<System>, steps: seq<Step>, i: nat)
    requires IsRun(run, steps) && i < |run|
    ensures var db := run[i].db;
      forall id | id in db.tasks && IsSplit(db.tasks[id]) && db.tasks[id].status == Completed :: AllChunksDone(db, id)
  {
    RunCompletesByChunks(run, steps, i, false);
  }

  // ---------- a parent is completed exactly when its chunks are done ----------

  /** A parent that has chunks, none of them open, is completed. */
  ghost predicate DoneParentsComplete(db: Db, gangs: bool) {
    forall id | id in db.tasks && LivesOnChunks(db.tasks[id], gangs) && HasChunk(db, id) && !HasOpenChunk(db, id) ::
      db.tasks[id].status == Completed
  }

  lemma DoneParentKept(s: System, d: Delta, s': System, id: string, gangs: bool)
    requires Inv(s) && (gangs ==> GangsOk(s)) && Effect(s, d, s') && DoneParentsComplete(s.db, gangs)
    requires id in s'.db.tasks && LivesOnChunks(s'.db.tasks[id], gangs)
    requires HasChunk(s'.db, id) && !HasOpenChunk(s'.db, id)
    ensures s'.db.tasks[id].status == Completed
  {
    ChunkMeansTask(s, d, s', id);
    ParentRow(s, d, s', id, gangs);
    if HasOpenChunk(s.db, id) {
      LastOpenChunkDone(s, d, s', id);
    } else if HasChunk(s.db, id) {
      assert s.db.tasks[id].status == Completed;
    } else {
      FirstChunksOpen(s, d, s', id);
    }
  }

  /** A task that has a chunk after a step was there before it. */
  lemma ChunkMeansTask(s: System, d: Delta, s': System, id: string)
    requires RowsOk(s.db) && ChunkEffect(s, d, s') && NewChunkEffect(s, d, s') && HasChunk(s'.db, id)
    ensures id in s.db.tasks
  {
    var k :| k in s'.db.chunks && s'.db.chunks[k].parent == id;
    if k in s.db.chunks {
      assert ChunkOk(s.db, s.db.chunks[k]);
    } else {
      assert NewChunkOk(s, d, k, s'.db.chunks[k]);
    }
  }

  /** When the open chunks of a parent are all done after a step, the step finished the parent. */
  lemma LastOpenChunkDone(s: System, d: Delta, s': System, id: string)
    requires TaskEffect(s, d, s') && ChunkEffect(s, d, s') && CompletionEffect(s, d, s')
    requires id in s.db.tasks && HasOpenChunk(s.db, id) && !HasOpenChunk(s'.db, id)
    ensures s'.db.tasks[id].status == Completed
  {
    var k :| k in s.db.chunks && s.db.chunks[k].parent == id && !Done(s.db.chunks[k].status);
    assert k in s'.db.chunks && s'.db.chunks[k].parent == id;
    assert d.tasks[id] == AllDone;
  }

  /** The first chunks of a parent are open. */
  lemma FirstChunksOpen(s: System, d: Delta, s': System, id: string)
    requires ChunkEffect(s, d, s') && NewChunkEffect(s, d, s')
    requires id in s.db.tasks && !HasChunk(s.db, id) && HasChunk(s'.db, id)
    ensures HasOpenChunk(s'.db, id)
  {
    var k :| k in s'.db.chunks && s'.db.chunks[k].parent == id;
    assert !(k in s.db.chunks && s.db.chunks[k].parent == id);
    assert NewChunkOk(s, d, k, s'.db.chunks[k]);
  }

  lemma DoneParentsCompleteKept(s: System, d: Delta, s': System, gangs: bool)
    requires Inv(s) && (gangs ==> GangsOk(s)) && Effect(s, d, s') && DoneParentsComplete(s.db, gangs)
    ensures DoneParentsComplete(s'.db, gangs)
  {
    forall id | id in s'.db.tasks && LivesOnChunks(s'.db.tasks[id], gangs) && HasChunk(s'.db, id)
      && !HasOpenChunk(s'.db, id)
      ensures s'.db.tasks[id].status == Completed
    {
      DoneParentKept(s, d, s', id, gangs);
    }
  }

  lemma {:induction false} RunCompletesDoneParents(run: seq<System>, steps: seq<Step>, i: nat, gangs: bool)
    requires IsRun(run, steps) && i < |run| && (gangs ==> forall j | 0 <= j < i :: NamesNode(steps[j]))
    ensures DoneParentsComplete(run[i].db, gangs)
  {
    if i > 0 {
      RunCompletesDoneParents(run, steps, i - 1, gangs);
      if gangs { RunKeepsGangs(run, steps, i - 1); }
      NextCompletesDoneParents(run, steps, i - 1, gangs);
    }
  }

  lemma NextCompletesDoneParents(run: seq<System>, steps: seq<Step>, i: nat, gangs: bool)
    requires IsRun(run, steps) && i < |steps| && (gangs ==> GangsOk(run[i])) && DoneParentsComplete(run[i].db, gangs)
    ensures DoneParentsComplete(run[i + 1].db, gangs)
  {
    RunKeepsInv(run, steps, i);
    RunStep(run, steps, i);
    DoneParentsCompleteKept(run[i], DeltaOf(run[i], steps[i]), run[i + 1], gangs);
  }

  /** In every run, cancels and manual retries included, a split parent is completed exactly when it
      has chunks and all of them are completed or failed. */
  lemma CompletedExactlyWhenDone(run: seq<System>, steps: seq<Step>, i: nat, id: string)
    requires IsRun(run, steps) && i < |run| && id in run[i].db.tasks && IsSplit(run[i].db.tasks[id])
    ensures run[i].db.tasks[id].status == Completed <==> AllChunksDone(run[i].db, id)
  {
    RunCompletesByChunks(run, steps, i, false);
    RunCompletesDoneParents(run, steps, i, false);
  }

  /** So the last chunk result never leaves its parent waiting: in every run a parent in splitting
      that has chunks has one that is not done. */
  lemma NoParentStranded(run: seq<System>, steps: seq<Step>, i: nat, id: string)
    requires IsRun(run, steps) && i < |run| && id in run[i].db.tasks && IsSplit(run[i].db.tasks[id])
    ensures run[i].db.tasks[id].status == Splitting && HasChunk(run[i].db, id) ==> HasOpenChunk(run[i].db, id)
  {
    CompletedExactlyWhenDone(run, steps, i, id);
  }

  /** The same for gangs, in every run whose polls name a node: a gang is completed exactly when it has
      chunks and all are done, so a scheduled gang that has chunks has an open one. */
  lemma GangCompletedExactlyWhenDone(run: seq<System>, steps: seq<Step>, i: nat, id: string)
    requires IsRun(run, steps) && i < |run| && id in run[i].db.tasks && IsGang(run[i].db.tasks[id])
    requires forall j | 0 <= j < i :: NamesNode(steps[j])
    ensures run[i].db.tasks[id].status == Completed <==> AllChunksDone(run[i].db, id)
    ensures run[i].db.tasks[id].status == Scheduled && HasChunk(run[i].db, id) ==> HasOpenChunk(run[i].db, id)
  {
    RunCompletesByChunks(run, steps, i, true);
    RunCompletesDoneParents(run, steps, i, true);
  }

  // ---------- a waiting parent has no chunks, unless it was retried ----------

  ghost predicate WaitingHaveNoChunks(db: Db) {
    forall id | id in db.tasks && IsSplit(db.tasks[id]) && Waiting(db.tasks[id].status) :: !HasChunk(db, id)
  }

  lemma WaitingParentKept(s: System, d: Delta, s': System, id: string)
    requires Inv(s) && Effect(s, d, s') && WaitingHaveNoChunks(s.db) && NoManualRetry(d)
    requires id in s'.db.tasks && IsSplit(s'.db.tasks[id]) && Waiting(s'.db.tasks[id].status)
    ensures !HasChunk(s'.db, id)
  {
    if HasChunk(s'.db, id) {
      ChunkMeansTask(s, d, s', id);
      StillWaiting(s.db.tasks[id], d.tasks[id], s.handedTasks[id]);
      NoChunkAdded(s, d, s', id);
    }
  }

  /** A task that is not waiting, or left as it was, gets no chunk. */
  lemma NoChunkAdded(s: System, d: Delta, s': System, id: string)
    requires ChunkEffect(s, d, s') && NewChunkEffect(s, d, s')
    requires id in d.tasks && id in s.db.tasks && (d.tasks[id] == Stay || !Waiting(s.db.tasks[id].status))
    requires !HasChunk(s.db, id)
    ensures !HasChunk(s'.db, id)
  {
    forall k | k in s'.db.chunks
      ensures s'.db.chunks[k].parent != id
    {
      if k in s.db.chunks {
        assert s'.db.chunks[k].parent == s.db.chunks[k].parent;
      } else {
        assert NewChunkOk(s, d, k, s'.db.chunks[k]);
      }
    }
  }

  /** Without a manual retry a split task that waits was waiting and was not looked at. */
  lemma StillWaiting(t: Task, ch: Change, handed: nat)
    requires TaskOk(t) && Allowed(t, ch, handed) && ch != ManualRetry && (IsSplit(t) ==> handed == 0)
    requires IsSplit(Changed(t, ch)) && Waiting(Changed(t, ch).status)
    ensures ch == Stay && IsSplit(t) && Waiting(t.status)
  {
  }

  lemma {:induction false} NoChunksBeforeSplitting(run: seq<System>, steps: seq<Step>, i: nat)
    requires IsRun(run, steps) && i < |run|
    requires forall j | 0 <= j < i :: !steps[j].Retry?
    ensures WaitingHaveNoChunks(run[i].db)
  {
    if i > 0 {
      NoChunksBeforeSplitting(run, steps, i - 1);
      RunKeepsInv(run, steps, i - 1);
      RunStep(run, steps, i - 1);
      OnlyRetryRetries(run[i - 1], steps[i - 1]);
      WaitingKept(run[i - 1], DeltaOf(run[i - 1], steps[i - 1]), run[i]);
    }
  }

  lemma WaitingKept(s: System, d: Delta, s': System)
    requires Inv(s) && Effect(s, d, s') && WaitingHaveNoChunks(s.db) && NoManualRetry(d)
    ensures WaitingHaveNoChunks(s'.db)
  {
    forall id | id in s'.db.tasks && IsSplit(s'.db.tasks[id]) && Waiting(s'.db.tasks[id].status)
      ensures !HasChunk(s'.db, id)
    {
      WaitingParentKept(s, d, s', id);
    }
  }

  // ---------- a parent split into nothing ----------

  /** In splitting, and nothing will ever be reported for it. */
  ghost predicate StuckEmpty(db: Db, id: string) {
    id in db.tasks && IsSplit(db.tasks[id]) && db.tasks[id].status == Splitting && !HasChunk(db, id)
  }

  lemma StuckKept(s: System, d: Delta, s': System, id: string)
    requires Inv(s) && TaskEffect(s, d, s') && ChunkEffect(s, d, s') && NewChunkEffect(s, d, s')
    requires CompletionEffect(s, d, s')
    requires StuckEmpty(s.db, id)
    ensures id in s'.db.tasks && IsSplit(s'.db.tasks[id]) && !HasChunk(s'.db, id)
    ensures s'.db.tasks[id].status == if d.tasks[id] == CancelIt then Cancelled else Splitting
  {
    NoChunkAdded(s, d, s', id);
    StaysGang(s.db.tasks[id], d.tasks[id]);
    ParentRow(s, d, s', id, false);
    assert d.tasks[id] != AllDone by {
      assert AllChunksDone(s'.db, id) ==> HasChunk(s'.db, id);
    }
  }

  lemma OnlyCancelCancels(s: System, step: Step, id: string)
    requires id in s.db.tasks
    ensures DeltaOf(s, step).tasks[id] == CancelIt <==> step == Cancel(id) && !Terminal(s.db.tasks[id].status)
  {
  }

  /** One step leaves it as it is, or cancels it. */
  lemma StuckInRun(run: seq<System>, steps: seq<Step>, i: nat, id: string)
    requires IsRun(run, steps) && i < |steps| && StuckEmpty(run[i].db, id)
    ensures id in run[i + 1].db.tasks && !HasChunk(run[i + 1].db, id)
    ensures run[i + 1].db.tasks[id].status == if steps[i] == Cancel(id) then Cancelled else Splitting
    ensures steps[i] != Cancel(id) ==> StuckEmpty(run[i + 1].db, id)
  {
    RunKeepsInv(run, steps, i);
    RunStep(run, steps, i);
    StuckNext(run[i], steps[i], run[i + 1], id);
  }

  lemma StuckNext(s: System, step: Step, s': System, id: string)
    requires Inv(s) && Effect(s, DeltaOf(s, step), s') && StuckEmpty(s.db, id)
    ensures id in s'.db.tasks && !HasChunk(s'.db, id)
    ensures s'.db.tasks[id].status == if step == Cancel(id) then Cancelled else Splitting
    ensures step != Cancel(id) ==> StuckEmpty(s'.db, id)
  {
    OnlyCancelCancels(s, step, id);
    StuckKept(s, DeltaOf(s, step), s', id);
  }

  /** In every run a parent in splitting without chunks stays so until it is cancelled. */
  lemma {:induction false} StuckUntilCancelled(run: seq<System>, steps: seq<Step>, i: nat, j: nat, id: string)
    requires IsRun(run, steps) && i <= j < |run| && StuckEmpty(run[i].db, id)
    requires forall k | i <= k < j :: steps[k] != Cancel(id)
    ensures StuckEmpty(run[j].db, id)
    decreases j
  {
    if i < j {
      StuckUntilCancelled(run, steps, i, j - 1, id);
      StuckInRun(run, steps, j - 1, id);
    }
  }

  /** A cycle leaves a waiting split task in splitting without chunks exactly when it had no chunks and
      its plan is empty: an empty input file cut by size. */
  lemma EmptyPlanSticksExactly(s: System, nodes: seq<Node>, w: World, s': System, id: string)
    requires Inv(s) && Next(s, Schedule(nodes, w), s') && nodes != []
    requires id in s.db.tasks && IsSplit(s.db.tasks[id]) && Waiting(s.db.tasks[id].status)
    ensures var t := s.db.tasks[id];
      StuckEmpty(s'.db, id) <==>
        && !HasChunk(s.db, id)
        && (t.splitStrategy == "chunk" || t.splitStrategy == "map-reduce")
        && t.inputFile != "" && t.inputFile in w.files
        && t.splitBy == "size" && w.files[t.inputFile] == []
  {
    var t := s.db.tasks[id];
    EmptyPlanExactly(t, w);
    assert s'.db.tasks[id] == FinalTask(t, nodes, w);
    if HasChunk(s.db, id) {
      ChunksRemain(s.db, s'.db, nodes, w, id);
    } else if SplitPlan(t, w) == Success([]) {
      NothingInserted(s, nodes, w, s', id);
    } else if SplitPlan(t, w).Success? {
      FirstRowInserted(s.db, s'.db.chunks, nodes, w, id);
    }
  }

  lemma ChunksRemain(db: Db, after: Db, nodes: seq<Node>, w: World, id: string)
    requires ChunksScheduled(db, after.chunks, nodes, w) && HasChunk(db, id)
    ensures HasChunk(after, id)
  {
    var k :| k in db.chunks && db.chunks[k].parent == id;
    assert after.chunks[k] == ChunkAfter(db, k, nodes);
  }

  /** A row of the chunk table after a cycle is an old one, or was inserted for its parent. */
  lemma RowSource(db: Db, after: map<string, Chunk>, nodes: seq<Node>, w: World, k: string)
    requires Keyed(db) && ChunksScheduled(db, after, nodes, w) && k in after
    ensures k in db.chunks ==> after[k].parent == db.chunks[k].parent
    ensures k !in db.chunks ==>
      exists c :: Inserted(db, after[k].parent, c, nodes, w) && StoredChunk(c) == after[k] && after[k].id == k
  {
    if k in db.chunks {
      assert after[k] == ChunkAfter(db, k, nodes);
    } else {
      assert NewChunkId(db, k, nodes, w);
      var owner, c :| Inserted(db, owner, c, nodes, w) && StoredChunk(c).id == k;
      NewChunkShape(db.tasks[owner], nodes, w, c);
      assert after[k] == StoredChunk(c);
    }
  }

  lemma NothingInserted(s: System, nodes: seq<Node>, w: World, s': System, id: string)
    requires Keyed(s.db) && ChunksScheduled(s.db, s'.db.chunks, nodes, w)
    requires id in s.db.tasks && IsSplit(s.db.tasks[id]) && SplitPlan(s.db.tasks[id], w) == Success([])
    requires !HasChunk(s.db, id)
    ensures !HasChunk(s'.db, id)
  {
    forall k | k in s'.db.chunks
      ensures s'.db.chunks[k].parent != id
    {
      RowSource(s.db, s'.db.chunks, nodes, w, k);
    }
  }

  /** The first planned chunk is in the table, under the parent's name. */
  lemma FirstRowInserted(db: Db, after: map<string, Chunk>, nodes: seq<Node>, w: World, id: string)
    requires RowsOk(db) && ChunksScheduled(db, after, nodes, w)
    requires id in db.tasks && IsSplit(db.tasks[id]) && Waiting(db.tasks[id].status) && !HasChunk(db, id)
    requires SplitPlan(db.tasks[id], w).Success? && SplitPlan(db.tasks[id], w).value != []
    ensures HasChunk(db.(chunks := after), id)
  {
    var c := SplitPlan(db.tasks[id], w).value[0];
    assert c == PlannedChunk(db.tasks[id], 0) && db.tasks[id].id == id;
    PrefixLegal(db.tasks[id].splitStrategy);
    NoOldChunkNamed(db, PrefixOf(db.tasks[id].splitStrategy), id, 0);
    assert Inserted(db, id, c, nodes, w) && StoredChunk(c).id == c.id;
    assert c.id in after && after[c.id].parent == id;
  }

  // ---------- progress ----------

  function Rank(status: Status): nat {
    if Waiting(status) then 3 else if status == Running then 1 else if Terminal(status) then 0 else 2
  }

  function Measure(t: Task): int {
    3 * (RetryBudget(t) - t.retryCount) + Rank(t.status)
  }

  /** Without a manual retry the measure strictly drops whenever a row leaves a non-terminal status,
      and never grows otherwise; a terminal status is then never left for a non-terminal one. */
  lemma MeasureDrops(t: Task, ch: Change, handed: nat)
    requires TaskOk(t) && Allowed(t, ch, handed) && ch != ManualRetry && t.retryCount <= RetryBudget(t)
    ensures Changed(t, ch).retryCount <= RetryBudget(Changed(t, ch)) == RetryBudget(t)
    ensures Measure(Changed(t, ch)) <= Measure(t)
    ensures !Terminal(t.status) && Changed(t, ch).status != t.status ==> Measure(Changed(t, ch)) < Measure(t)
    ensures Terminal(t.status) ==> Terminal(Changed(t, ch).status)
  {
  }

  /** In every run without manual retries the measure of a task strictly drops at every step in which
      it leaves a non-terminal status, never grows, and a terminal status stays terminal. */
  lemma MeasureDropsInRuns(run: seq<System>, steps: seq<Step>, i: nat, id: string)
    requires IsRun(run, steps) && i < |steps| && id in run[i].db.tasks
    requires forall j | 0 <= j <= i :: !steps[j].Retry?
    ensures id in run[i + 1].db.tasks
    ensures var t, t' := run[i].db.tasks[id], run[i + 1].db.tasks[id];
      && 0 <= Measure(t') <= Measure(t) <= 3 * RetryBudget(t) + 3
      && (!Terminal(t.status) && t'.status != t.status ==> Measure(t') < Measure(t))
      && (Terminal(t.status) ==> Terminal(t'.status))
  {
    MoveBound(run, steps, i);
    RunKeepsInv(run, steps, i);
    RunStep(run, steps, i);
    OnlyRetryRetries(run[i], steps[i]);
    MeasureDrops(run[i].db.tasks[id], DeltaOf(run[i], steps[i]).tasks[id], run[i].handedTasks[id]);
  }

  ghost predicate MovesBounded(s: System) {
    forall id | id in s.db.tasks ::
      && s.db.tasks[id].retryCount <= RetryBudget(s.db.tasks[id])
      && s.moves[id] + Measure(s.db.tasks[id]) <= 3 * RetryBudget(s.db.tasks[id]) + 3
  }

  lemma MovesBoundedKept(s: System, d: Delta, s': System)
    requires Inv(s) && Effect(s, d, s') && MovesBounded(s) && NoManualRetry(d)
    requires s'.moves == s.moves + multiset(Moved(s.db, s'.db))
    ensures MovesBounded(s')
  {
    forall id | id in s'.db.tasks
      ensures s'.db.tasks[id].retryCount <= RetryBudget(s'.db.tasks[id])
      ensures s'.moves[id] + Measure(s'.db.tasks[id]) <= 3 * RetryBudget(s'.db.tasks[id]) + 3
    {
      if id in s.db.tasks {
        MoveCounted(s, s', id);
        MeasureDrops(s.db.tasks[id], d.tasks[id], s.handedTasks[id]);
      }
    }
  }

  lemma MoveCounted(s: System, s': System, id: string)
    requires s'.moves == s.moves + multiset(Moved(s.db, s'.db)) && id in s.db.tasks && id in s'.db.tasks
    ensures s'.moves[id] == s.moves[id] +
      One(!Terminal(s.db.tasks[id].status) && s'.db.tasks[id].status != s.db.tasks[id].status)
  {
    assert id in Moved(s.db, s'.db) <==>
      !Terminal(s.db.tasks[id].status) && s'.db.tasks[id].status != s.db.tasks[id].status;
  }

  /** In every run without manual retries a task leaves a non-terminal status at most
      3 * max(retry_max, 0) + 3 times. */
  lemma {:induction false} MoveBound(run: seq<System>, steps: seq<Step>, i: nat)
    requires IsRun(run, steps) && i < |run|
    requires forall j | 0 <= j < i :: !steps[j].Retry?
    ensures MovesBounded(run[i])
    ensures forall id | id in run[i].db.tasks :: run[i].moves[id] <= 3 * RetryBudget(run[i].db.tasks[id]) + 3
  {
    if i > 0 {
      MoveBound(run, steps, i - 1);
      MovesBoundedInRun(run, steps, i - 1);
    }
  }

  lemma MovesBoundedInRun(run: seq<System>, steps: seq<Step>, i: nat)
    requires IsRun(run, steps) && i < |steps| && MovesBounded(run[i]) && !steps[i].Retry?
    ensures MovesBounded(run[i + 1])
  {
    RunKeepsInv(run, steps, i);
    assert StepAt(run, steps, i);
    MovesBoundedStep(run[i], steps[i], run[i + 1]);
  }

  lemma MovesBoundedStep(s: System, step: Step, s': System)
    requires Inv(s) && Next(s, step, s') && MovesBounded(s) && !step.Retry?
    ensures MovesBounded(s')
  {
    StepEffect(s, step, s');
    OnlyRetryRetries(s, step);
    MovesBoundedKept(s, DeltaOf(s, step), s');
  }

  // ---------- gangs ----------

  /** The chunk rows of t are exactly one per gang member: rank r is scheduled on the r-th node. */
  ghost predicate GangPlaced(db: Db, t: Task, gang: seq<Node>) {
    && (forall r: nat | r < |gang| ::
          var k := ChunkId("chunk", t.id, r);
          var cell := if gang[r].row.id == "" then None else Some(gang[r].row.id);
          k in db.chunks && db.chunks[k] == Chunk(k, t.id, r, cell, Scheduled, "", "", -1))
    && (forall k | k in db.chunks && db.chunks[k].parent == t.id ::
          exists r: nat :: r < |gang| && k == ChunkId("chunk", t.id, r))
  }

  /** In a reachable state a cycle gives a waiting gang without chunks either nothing at all, or one
      scheduled chunk for each rank 0..WorldSize-1, on pairwise distinct online nodes that satisfy its
      constraints; and it gets them exactly when that many nodes do. */
  lemma GangAllOrNothingInStore(s: System, nodes: seq<Node>, w: World, s': System, id: string)
    requires Inv(s) && Next(s, Schedule(nodes, w), s') && nodes != []
    requires id in s.db.tasks && Waiting(s.db.tasks[id].status) && !HasChunk(s.db, id)
    requires var t := s.db.tasks[id];
      t.isDistributed && t.worldSize > 1 && (t.taskType == Simple || t.splitStrategy == "")
    ensures var t, gang := s.db.tasks[id], GangNodes(s.db.tasks[id], nodes);
      if |set n | n in nodes && Eligible(t, n)| < t.worldSize then
        id in s'.db.tasks && s'.db.tasks[id] == t && !HasChunk(s'.db, id)
      else
        && id in s'.db.tasks && s'.db.tasks[id] == t.(status := Scheduled)
        && |gang| == t.worldSize && DistinctIds(gang)
        && (forall n | n in gang :: n in nodes && Eligible(t, n))
        && GangPlaced(s'.db, t, gang)
  {
    var t := s.db.tasks[id];
    assert s'.db.tasks[id] == FinalTask(t, nodes, w);
    GangAllOrNothing(t, nodes);
    GangRows(s.db, s'.db.chunks, nodes, w, id);
    if GangNodes(t, nodes) == [] {
      forall k | k in s'.db.chunks
        ensures s'.db.chunks[k].parent != id
      {
        assert forall r: nat :: !(r < |GangNodes(t, nodes)| && k == ChunkId("chunk", id, r));
      }
    }
  }

  lemma GangRows(db: Db, after: map<string, Chunk>, nodes: seq<Node>, w: World, id: string)
    requires RowsOk(db) && ChunksScheduled(db, after, nodes, w)
    requires id in db.tasks && IsGang(db.tasks[id]) && Waiting(db.tasks[id].status) && !HasChunk(db, id)
    ensures GangPlaced(db.(chunks := after), db.tasks[id], GangNodes(db.tasks[id], nodes))
  {
    var t, gang := db.tasks[id], GangNodes(db.tasks[id], nodes);
    forall r: nat | r < |gang|
      ensures var k := ChunkId("chunk", id, r);
        k in after && after[k] == Chunk(k, id, r, NullIfEmpty(gang[r].row.id), Scheduled, "", "", -1)
    {
      GangRowInserted(db, after, nodes, w, id, r);
    }
    forall k | k in after && after[k].parent == id
      ensures exists r: nat :: r < |gang| && k == ChunkId("chunk", id, r)
    {
      GangRowOwned(db, after, nodes, w, id, k);
    }
  }

  lemma GangRowInserted(db: Db, after: map<string, Chunk>, nodes: seq<Node>, w: World, id: string, r: nat)
    requires RowsOk(db) && ChunksScheduled(db, after, nodes, w)
    requires id in db.tasks && IsGang(db.tasks[id]) && Waiting(db.tasks[id].status) && !HasChunk(db, id)
    requires r < |GangNodes(db.tasks[id], nodes)|
    ensures var k := ChunkId("chunk", id, r);
      k in after && after[k] ==
        Chunk(k, id, r, NullIfEmpty(GangNodes(db.tasks[id], nodes)[r].row.id), Scheduled, "", "", -1)
  {
    var k, c := ChunkId("chunk", id, r), GangChunk(db.tasks[id], r, GangNodes(db.tasks[id], nodes)[r]);
    assert db.tasks[id].id == id;
    NoOldChunkNamed(db, "chunk", id, r);
    assert c == GangChunks(db.tasks[id], GangNodes(db.tasks[id], nodes))[r];
    assert Inserted(db, id, c, nodes, w);
    assert StoredChunk(c).id == k;
  }

  /** Without chunks of the task, no row stands under one of its chunk IDs. */
  lemma NoOldChunkNamed(db: Db, prefix: string, id: string, r: nat)
    requires RowsOk(db) && !HasChunk(db, id) && LegalPrefix(prefix)
    ensures ChunkId(prefix, id, r) !in db.chunks
  {
    var k := ChunkId(prefix, id, r);
    if k in db.chunks {
      var c := db.chunks[k];
      assert ChunkOk(db, c) && c.id == k;
      var p :| LegalPrefix(p) && c.id == ChunkId(p, c.parent, c.index);
      ChunkIdInjective(prefix, id, r, p, c.parent, c.index);
    }
  }

  lemma GangRowOwned(db: Db, after: map<string, Chunk>, nodes: seq<Node>, w: World, id: string, k: string)
    requires RowsOk(db) && ChunksScheduled(db, after, nodes, w) && k in after && after[k].parent == id
    requires id in db.tasks && IsGang(db.tasks[id]) && !HasChunk(db, id)
    ensures exists r: nat :: r < |GangNodes(db.tasks[id], nodes)| && k == ChunkId("chunk", id, r)
  {
    RowSource(db, after, nodes, w, k);
    var d :| Inserted(db, id, d, nodes, w) && StoredChunk(d) == after[k];
    GangMember(db.tasks[id], nodes, w, d);
    assert db.tasks[id].id == id;
  }

  lemma GangMember(t: Task, nodes: seq<Node>, w: World, d: Chunk)
    requires IsGang(t) && d in NewChunks(t, nodes, w)
    ensures exists r: nat :: r < |GangNodes(t, nodes)| && StoredChunk(d).id == ChunkId("chunk", t.id, r)
  {
    var gang := GangNodes(t, nodes);
    var r: nat :| r < |gang| && GangChunk(t, r, gang[r]) == d;
    assert StoredChunk(d).id == ChunkId("chunk", t.id, r);
  }
}
