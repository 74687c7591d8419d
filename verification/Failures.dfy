/** Runs of the interleaved controller in which a guarantee of the atomic model fails. */
module Failures {
  import opened Records
  import opened ChunkIds
  import opened Scoring
  import opened Placement
  import opened SplitPlans
  import opened TaskStore
  import opened Scheduling
  import opened Handlers
  import opened Interleaving
  import opened Stranding

  const ID := "task-00000000"
  const NODE := "node"
  const NODE_ROW := NodeRow(NODE, NODE, Worker, Online, 1, 0, 0, 0)
  const SNAPSHOT := [Node(NODE_ROW, NO_METRICS)]
  const WORLD := World(map[], 1)

  /** A row that asks for one core; `strategy` is empty for a simple task. */
  function Row(strategy: string, status: Status, retries: int, node: Option<string>, exitCode: int): Task {
    Task(ID, status, if strategy == "" then Simple else Split, strategy, "run", 1, 0, 0, "normal", 0, retries, node, "",
         exitCode, 0, "", "", 0, 0, false, 1)
  }

  function Fresh(strategy: string): Task {
    Row(strategy, Queued, 0, None, -1)
  }

  /** One task, one online worker. */
  function Shop(t: Task, chunks: map<string, Chunk>, scheduler: Interleaving.Scheduler, handlers: seq<Handler>,
                handedTasks: multiset<string>, handedChunks: multiset<string>): Machine {
    Machine(Db(map[ID := t], chunks, map[NODE := NODE_ROW], map[]), scheduler, Resting, handlers, multiset{},
            handedTasks, handedChunks)
  }

  // ---------- what the runs have in common ----------

  lemma TheSnapshot(t: Task, chunks: map<string, Chunk>)
    ensures WorkerSnapshot(Db(map[ID := t], chunks, map[NODE := NODE_ROW], map[]), SNAPSHOT)
  {
    var db := Db(map[ID := t], chunks, map[NODE := NODE_ROW], map[]);
    assert OnlineWorkers(db) == {NODE};
    assert WorkerNode(db, NODE) == SNAPSHOT[0];
  }

  lemma TheBestNode(t: Task)
    requires t.cpuRequired == 1 && t.memoryRequired == 0 && t.gpuRequired == 0 && t.targetNode == ""
    ensures BestNode(t, SNAPSHOT) == Some(SNAPSHOT[0])
  {
    var n := SNAPSHOT[0];
    assert AvailableCores(n) == 1.0;
    assert Eligible(t, n);
    ChoiceIsBest(t, SNAPSHOT, 0);
  }

  /** A fresh row is submitted. */
  lemma Submitted(strategy: string)
    ensures Reachable(Shop(Fresh(strategy), map[], Idle, [], multiset{}, multiset{}))
  {
    var s0 := Machine(Db(map[], map[], map[], map[]), Idle, Resting, [], multiset{}, multiset{}, multiset{});
    var s1 := s0.(db := Db(map[], map[], map[NODE := NODE_ROW], map[]));
    StartReachable(s0);
    NextReachable(s0, NodesChange(map[NODE := NODE_ROW], map[]), s1);
    NextReachable(s1, ByRequest(RequestStep.Submit(Fresh(strategy))),
                  Shop(Fresh(strategy), map[], Idle, [], multiset{}, multiset{}));
  }

  /** The scheduler reads a waiting task, when no chunk is queued, and the node. */
  lemma CycleStarts(t: Task, chunks: map<string, Chunk>, handlers: seq<Handler>, handed: multiset<string>)
    requires t.id == ID && Waiting(t.status) && forall k | k in chunks :: chunks[k].status != Queued
    requires Reachable(Shop(t, chunks, Idle, handlers, multiset{}, handed))
    ensures Reachable(Shop(t, chunks, Working([], [t], [], SNAPSHOT), handlers, multiset{}, handed))
  {
    var s0 := Shop(t, chunks, Idle, handlers, multiset{}, handed);
    var s1 := s0.(scheduler := GotTasks([t]));
    var s2 := s0.(scheduler := GotChunks([t], []));
    var s3 := s0.(scheduler := Working([], [t], [], SNAPSHOT));
    assert TaskRows(s0.db, [t], WaitingTasks(s0.db)) by {
      assert [t][0].id == ID;
    }
    NextReachable(s0, ByScheduler(SchedulerReadTasks([t])), s1);
    assert QueuedChunks(s1.db) == {};
    NextReachable(s1, ByScheduler(SchedulerReadChunks([])), s2);
    TheSnapshot(t, chunks);
    NextReachable(s2, ByScheduler(SchedulerReadNodes(SNAPSHOT)), s3);
  }

  // ---------- one task, handed out twice ----------

  /** Its first placement is written. */
  lemma Placed()
    ensures Reachable(Shop(Row("", Scheduled, 0, Some(NODE), -1), map[],
                           Working([SetMetrics(NODE, BusyMetrics(SNAPSHOT[0]))], [], [], SNAPSHOT),
                           [], multiset{}, multiset{}))
  {
    var t := Fresh("");
    var assign, busy := Assign(ID, NODE), SetMetrics(NODE, BusyMetrics(SNAPSHOT[0]));
    Submitted("");
    CycleStarts(t, map[], [], multiset{});
    var s0 := Shop(t, map[], Working([], [t], [], SNAPSHOT), [], multiset{}, multiset{});
    var s1 := s0.(scheduler := Working([assign, busy], [], [], SNAPSHOT));
    TheBestNode(t);
    assert TaskCalls(t, SNAPSHOT, WORLD) == [assign, busy] && [t][1..] == [];
    NextReachable(s0, ByScheduler(SchedulerNextTask(WORLD)), s1);
    assert [assign, busy][1..] == [busy];
    NextReachable(s1, ByScheduler(SchedulerCall),
                  Shop(Row("", Scheduled, 0, Some(NODE), -1), map[], Working([busy], [], [], SNAPSHOT), [],
                       multiset{}, multiset{}));
  }

  /** Both polls read the tasks before either hands out. */
  lemma TasksReadTwice(t: Task, p: Interleaving.Scheduler)
    requires t == Row("", Scheduled, 0, Some(NODE), -1)
    requires Reachable(Shop(t, map[], p, [], multiset{}, multiset{}))
    ensures Reachable(Shop(t, map[], p, [PollRead(NODE, [ID]), PollRead(NODE, [ID])], multiset{}, multiset{}))
  {
    var s0 := Shop(t, map[], p, [], multiset{}, multiset{});
    var reading := PollRead(NODE, [ID]);
    assert Lists([ID], PendingTasks(s0.db, NODE)) by {
      assert [ID][0] == ID && PendingTasks(s0.db, NODE) == {ID};
    }
    NextReachable(s0, ByRequest(PollTasks(NODE, [ID])), s0.(handlers := [reading]));
    NextReachable(s0.(handlers := [reading]), ByRequest(PollTasks(NODE, [ID])), s0.(handlers := [reading, reading]));
  }

  /** Then both find no chunks. */
  lemma ReadTwice(t: Task, p: Interleaving.Scheduler)
    requires t == Row("", Scheduled, 0, Some(NODE), -1)
    requires Reachable(Shop(t, map[], p, [], multiset{}, multiset{}))
    ensures Reachable(Shop(t, map[], p, [Polling(NODE, [ID], []), Polling(NODE, [ID], [])], multiset{}, multiset{}))
  {
    TasksReadTwice(t, p);
    var reading, polling := PollRead(NODE, [ID]), Polling(NODE, [ID], []);
    var s0 := Shop(t, map[], p, [reading, reading], multiset{}, multiset{});
    assert Lists([], HandedChunksOf(s0.db, NODE));
    NextReachable(s0, ByRequest(PollChunks(0, [])), s0.(handlers := [polling, reading]));
    NextReachable(s0.(handlers := [polling, reading]), ByRequest(PollChunks(1, [])),
                  s0.(handlers := [polling, polling]));
  }

  /** A poll hands out the task. */
  lemma TaskHandedOut(s: Machine, h: nat, s': Machine)
    requires Reachable(s) && h < |s.handlers| && s.handlers[h] == Polling(NODE, [ID], [])
    requires s' == s.(db := SetTaskStatus(s.db, ID, Running), handlers := s.handlers[h := Polling(NODE, [], [])],
                      handedTasks := s.handedTasks + multiset{ID})
    ensures Reachable(s')
  {
    assert [ID][1..] == [];
    NextReachable(s, ByRequest(RequestStep.HandOut(h)), s');
  }

  /** Two polls of a node that overlap hand out a task twice although it was never retried. */
  lemma HandedOutTwice() returns (s: Machine)
    ensures Reachable(s) && ID in s.db.tasks
    ensures s.db.tasks[ID].retryCount == 0 && s.handedTasks[ID] == 2
  {
    var p := Working([SetMetrics(NODE, BusyMetrics(SNAPSHOT[0]))], [], [], SNAPSHOT);
    var full, done := Polling(NODE, [ID], []), Polling(NODE, [], []);
    Placed();
    ReadTwice(Row("", Scheduled, 0, Some(NODE), -1), p);
    var s0 := Shop(Row("", Scheduled, 0, Some(NODE), -1), map[], p, [full, full], multiset{}, multiset{});
    var s1 := Shop(Row("", Running, 0, Some(NODE), -1), map[], p, [done, full], multiset{ID}, multiset{});
    s := Shop(Row("", Running, 0, Some(NODE), -1), map[], p, [done, done], multiset{ID, ID}, multiset{});
    TaskHandedOut(s0, 0, s1);
    TaskHandedOut(s1, 1, s);
  }

  // ---------- one parent, stranded ----------

  const CHUNK_ID := ChunkId("replica", ID, 0)
  const REPLICA := "replicated"

  /** The one chunk of the parent. */
  function ChunkRow(status: Status, node: Option<string>, exitCode: int): Chunk {
    Chunk(CHUNK_ID, ID, 0, node, status, "", ReplicaFile(OutputDir(ID), 0), exitCode)
  }

  lemma ThePlan(t: Task)
    requires t.id == ID && t.taskType == Split && t.splitStrategy == REPLICA && t.maxNodes == 0 && t.inputFile == ""
    ensures SplitPlan(t, WORLD) == Success([ChunkRow(Queued, None, 0)])
    ensures TaskCalls(t, SNAPSHOT, WORLD) == [NewChunk(ChunkRow(Queued, None, 0)), SetStatus(ID, Splitting)]
  {
    assert PlannedChunk(t, 0) == ChunkRow(Queued, None, 0);
    assert PlannedChunks(t, 1) == [PlannedChunk(t, 0)];
    assert ChunkCalls([ChunkRow(Queued, None, 0)]) == [NewChunk(ChunkRow(Queued, None, 0))];
  }

  predicate IsParent(t: Task) {
    t.id == ID && t.taskType == Split && t.splitStrategy == REPLICA && t.maxNodes == 0 && t.inputFile == ""
  }

  /** The scheduler decides to split the parent, having read it as t. */
  lemma SplitDecided(t: Task, u: Task, chunks: map<string, Chunk>, handlers: seq<Handler>, handed: multiset<string>)
    requires IsParent(t)
    requires Reachable(Shop(u, chunks, Working([], [t], [], SNAPSHOT), handlers, multiset{}, handed))
    ensures Reachable(Shop(u, chunks,
                           Working([NewChunk(ChunkRow(Queued, None, 0)), SetStatus(ID, Splitting)], [], [], SNAPSHOT),
                           handlers, multiset{}, handed))
  {
    var s0 := Shop(u, chunks, Working([], [t], [], SNAPSHOT), handlers, multiset{}, handed);
    ThePlan(t);
    assert [t][1..] == [];
    NextReachable(s0, ByScheduler(SchedulerNextTask(WORLD)), s0.(scheduler :=
      Working([NewChunk(ChunkRow(Queued, None, 0)), SetStatus(ID, Splitting)], [], [], SNAPSHOT)));
  }

  /** It inserts the chunk, unless the row is there already. */
  lemma ChunkInserted(u: Task, chunks: map<string, Chunk>, handlers: seq<Handler>, handed: multiset<string>)
    requires Reachable(Shop(u, chunks,
                            Working([NewChunk(ChunkRow(Queued, None, 0)), SetStatus(ID, Splitting)], [], [], SNAPSHOT),
                            handlers, multiset{}, handed))
    ensures Reachable(Shop(u, InsertChunk(chunks, ChunkRow(Queued, None, 0)),
                           Working([SetStatus(ID, Splitting)], [], [], SNAPSHOT),
                           handlers, multiset{}, handed))
  {
    var insert, mark := NewChunk(ChunkRow(Queued, None, 0)), SetStatus(ID, Splitting);
    var s0 := Shop(u, chunks, Working([insert, mark], [], [], SNAPSHOT), handlers, multiset{}, handed);
    assert [insert, mark][1..] == [mark];
    assert Exec(s0.db, insert) == s0.db.(chunks := InsertChunk(chunks, ChunkRow(Queued, None, 0)));
    NextReachable(s0, ByScheduler(SchedulerCall),
      Shop(u, InsertChunk(chunks, ChunkRow(Queued, None, 0)), Working([mark], [], [], SNAPSHOT), handlers,
           multiset{}, handed));
  }

  /** It writes `splitting`. */
  lemma Marked(u: Task, chunks: map<string, Chunk>, handlers: seq<Handler>, handed: multiset<string>)
    requires Reachable(Shop(u, chunks, Working([SetStatus(ID, Splitting)], [], [], SNAPSHOT), handlers, multiset{},
                            handed))
    ensures Reachable(Shop(u.(status := Splitting), chunks, Working([], [], [], SNAPSHOT), handlers, multiset{},
                           handed))
  {
    var mark := SetStatus(ID, Splitting);
    var s0 := Shop(u, chunks, Working([mark], [], [], SNAPSHOT), handlers, multiset{}, handed);
    assert [mark][1..] == [];
    assert map[ID := u][ID := u.(status := Splitting)] == map[ID := u.(status := Splitting)];
    NextReachable(s0, ByScheduler(SchedulerCall),
      Shop(u.(status := Splitting), chunks, Working([], [], [], SNAPSHOT), handlers, multiset{}, handed));
  }

  function Parent(status: Status, retries: int, node: Option<string>, exitCode: int): Task {
    Row(REPLICA, status, retries, node, exitCode)
  }

  /** The parent is submitted and split. */
  lemma FirstSplit()
    ensures Reachable(Shop(Parent(Splitting, 0, None, -1), map[CHUNK_ID := ChunkRow(Queued, None, -1)], Idle, [],
                           multiset{}, multiset{}))
  {
    var t := Fresh(REPLICA);
    Submitted(REPLICA);
    CycleStarts(t, map[], [], multiset{});
    SplitDecided(t, t, map[], [], multiset{});
    ChunkInserted(t, map[], [], multiset{});
    var chunks := map[CHUNK_ID := ChunkRow(Queued, None, -1)];
    assert CHUNK_ID != "";
    assert InsertChunk(map[], ChunkRow(Queued, None, 0)) == chunks;
    Marked(t, chunks, [], multiset{});
    CycleEnds(Parent(Splitting, 0, None, -1), chunks, [], multiset{});
  }

  lemma CycleEnds(t: Task, chunks: map<string, Chunk>, handlers: seq<Handler>, handed: multiset<string>)
    requires Reachable(Shop(t, chunks, Working([], [], [], SNAPSHOT), handlers, multiset{}, handed))
    ensures Reachable(Shop(t, chunks, Idle, handlers, multiset{}, handed))
  {
    NextReachable(Shop(t, chunks, Working([], [], [], SNAPSHOT), handlers, multiset{}, handed),
                  ByScheduler(SchedulerEnd),
                  Shop(t, chunks, Idle, handlers, multiset{}, handed));
  }

  /** The next cycle reads the queued chunk. */
  lemma ChunkCycleStarts()
    requires Reachable(Shop(Parent(Splitting, 0, None, -1), map[CHUNK_ID := ChunkRow(Queued, None, -1)], Idle, [],
                            multiset{}, multiset{}))
    ensures Reachable(Shop(Parent(Splitting, 0, None, -1), map[CHUNK_ID := ChunkRow(Queued, None, -1)],
                           Working([], [], [ChunkRow(Queued, None, -1)], SNAPSHOT), [], multiset{}, multiset{}))
  {
    var t, c := Parent(Splitting, 0, None, -1), ChunkRow(Queued, None, -1);
    var s0 := Shop(t, map[CHUNK_ID := c], Idle, [], multiset{}, multiset{});
    var s1, s2 := s0.(scheduler := GotTasks([])), s0.(scheduler := GotChunks([], [c]));
    assert WaitingTasks(s0.db) == {};
    NextReachable(s0, ByScheduler(SchedulerReadTasks([])), s1);
    assert ChunkRows(s1.db, [c], QueuedChunks(s1.db)) by {
      assert [c][0].id == CHUNK_ID;
    }
    NextReachable(s1, ByScheduler(SchedulerReadChunks([c])), s2);
    TheSnapshot(t, map[CHUNK_ID := c]);
    NextReachable(s2, ByScheduler(SchedulerReadNodes(SNAPSHOT)), s0.(scheduler := Working([], [], [c], SNAPSHOT)));
  }

  /** And decides to place it. */
  lemma ChunkDecided()
    ensures Reachable(Shop(Parent(Splitting, 0, None, -1), map[CHUNK_ID := ChunkRow(Queued, None, -1)],
                           Working([PlaceChunk(CHUNK_ID, NODE)], [], [], SNAPSHOT), [], multiset{}, multiset{}))
  {
    var t, c := Parent(Splitting, 0, None, -1), ChunkRow(Queued, None, -1);
    FirstSplit();
    ChunkCycleStarts();
    var s0 := Shop(t, map[CHUNK_ID := c], Working([], [], [c], SNAPSHOT), [], multiset{}, multiset{});
    TheBestNode(t);
    assert [c][1..] == [];
    NextReachable(s0, ByScheduler(SchedulerNextChunk),
                  s0.(scheduler := Working([PlaceChunk(CHUNK_ID, NODE)], [], [], SNAPSHOT)));
  }

  lemma ChunkPlaced()
    ensures Reachable(Shop(Parent(Splitting, 0, None, -1), map[CHUNK_ID := ChunkRow(Scheduled, Some(NODE), -1)],
                           Idle, [], multiset{}, multiset{}))
  {
    var t, c, d := Parent(Splitting, 0, None, -1), ChunkRow(Queued, None, -1), ChunkRow(Scheduled, Some(NODE), -1);
    var place := PlaceChunk(CHUNK_ID, NODE);
    ChunkDecided();
    assert [place][1..] == [] && map[CHUNK_ID := c][CHUNK_ID := d] == map[CHUNK_ID := d];
    NextReachable(Shop(t, map[CHUNK_ID := c], Working([place], [], [], SNAPSHOT), [], multiset{}, multiset{}),
                  ByScheduler(SchedulerCall),
                  Shop(t, map[CHUNK_ID := d], Working([], [], [], SNAPSHOT), [], multiset{}, multiset{}));
    CycleEnds(t, map[CHUNK_ID := d], [], multiset{});
  }

  /** The node polls and gets it. */
  lemma ChunkPolled()
    ensures Reachable(Shop(Parent(Splitting, 0, None, -1), map[CHUNK_ID := ChunkRow(Running, Some(NODE), -1)], Idle,
                           [Polling(NODE, [], [])], multiset{}, multiset{CHUNK_ID}))
  {
    var t, c := Parent(Splitting, 0, None, -1), ChunkRow(Scheduled, Some(NODE), -1);
    ChunkPlaced();
    var s0 := Shop(t, map[CHUNK_ID := c], Idle, [], multiset{}, multiset{});
    var s1, s2 := s0.(handlers := [PollRead(NODE, [])]), s0.(handlers := [Polling(NODE, [], [CHUNK_ID])]);
    assert Lists([], PendingTasks(s0.db, NODE));
    NextReachable(s0, ByRequest(PollTasks(NODE, [])), s1);
    assert Lists([CHUNK_ID], HandedChunksOf(s1.db, NODE)) by {
      assert HandedChunksOf(s1.db, NODE) == {CHUNK_ID} && [CHUNK_ID][0] == CHUNK_ID;
    }
    NextReachable(s1, ByRequest(PollChunks(0, [CHUNK_ID])), s2);
    ChunkHandedOut(t);
  }

  /** A poll hands out the chunk. */
  lemma ChunkGiven(s: Machine, h: nat, s': Machine)
    requires Reachable(s) && h < |s.handlers| && s.handlers[h] == Polling(NODE, [], [CHUNK_ID])
    requires s' == s.(db := SetChunkStatus(s.db, CHUNK_ID, Running, 0), handlers := s.handlers[h := DONE_POLL],
                      handedChunks := s.handedChunks + multiset{CHUNK_ID})
    ensures Reachable(s')
  {
    assert [CHUNK_ID][1..] == [];
    NextReachable(s, ByRequest(RequestStep.HandOut(h)), s');
  }

  lemma ChunkHandedOut(t: Task)
    requires Reachable(Shop(t, map[CHUNK_ID := ChunkRow(Scheduled, Some(NODE), -1)], Idle,
                            [Polling(NODE, [], [CHUNK_ID])],
                            multiset{}, multiset{}))
    ensures Reachable(Shop(t, map[CHUNK_ID := ChunkRow(Running, Some(NODE), -1)], Idle, [Polling(NODE, [], [])],
                           multiset{}, multiset{CHUNK_ID}))
  {
    var c, d := ChunkRow(Scheduled, Some(NODE), -1), ChunkRow(Running, Some(NODE), -1);
    var s := Shop(t, map[CHUNK_ID := c], Idle, [Polling(NODE, [], [CHUNK_ID])], multiset{}, multiset{});
    assert map[CHUNK_ID := c][CHUNK_ID := d] == map[CHUNK_ID := d];
    ChunkGiven(s, 0, Shop(t, map[CHUNK_ID := d], Idle, [DONE_POLL], multiset{}, multiset{CHUNK_ID}));
  }

  const DONE_POLL := Polling(NODE, [], [])

  /** A user cancels the parent while its chunk runs. */
  lemma ParentCancelled()
    ensures Reachable(Shop(Parent(Cancelled, 0, None, -1), map[CHUNK_ID := ChunkRow(Running, Some(NODE), -1)], Idle,
                           [DONE_POLL, Calls([])], multiset{}, multiset{CHUNK_ID}))
  {
    var chunks := map[CHUNK_ID := ChunkRow(Running, Some(NODE), -1)];
    var t, u := Parent(Splitting, 0, None, -1), Parent(Cancelled, 0, None, -1);
    var call := SetStatus(ID, Cancelled);
    ChunkPolled();
    var s0 := Shop(t, chunks, Idle, [DONE_POLL], multiset{}, multiset{CHUNK_ID});
    var s1 := s0.(handlers := [DONE_POLL, Calls([call])]);
    NextReachable(s0, ByRequest(CancelRead(ID)), s1);
    assert [call][1..] == [] && map[ID := t][ID := u] == map[ID := u];
    NextReachable(s1, ByRequest(HandlerCall(1)),
                  Shop(u, chunks, Idle, [DONE_POLL, Calls([])], multiset{}, multiset{CHUNK_ID}));
  }

  /** And retries it. */
  lemma ParentRetried()
    ensures Reachable(Shop(Parent(Queued, 1, Some(""), -1), map[CHUNK_ID := ChunkRow(Running, Some(NODE), -1)], Idle,
                           [DONE_POLL, Calls([]), Calls([])], multiset{}, multiset{CHUNK_ID}))
  {
    var chunks := map[CHUNK_ID := ChunkRow(Running, Some(NODE), -1)];
    var t, u := Parent(Cancelled, 0, None, -1), Parent(Queued, 1, Some(""), -1);
    ParentCancelled();
    var s0 := Shop(t, chunks, Idle, [DONE_POLL, Calls([])], multiset{}, multiset{CHUNK_ID});
    var s1 := s0.(handlers := [DONE_POLL, Calls([]), Calls([Requeue(ID)])]);
    NextReachable(s0, ByRequest(RetryRead(ID)), s1);
    assert [Requeue(ID)][1..] == [] && map[ID := t][ID := u] == map[ID := u];
    NextReachable(s1, ByRequest(HandlerCall(2)),
      Shop(u, chunks, Idle, [DONE_POLL, Calls([]), Calls([])], multiset{}, multiset{CHUNK_ID}));
  }

  /** The scheduler has read the retried parent when the chunk is reported; the handler sees it done. */
  lemma ChunkReportedLate()
    ensures Reachable(Shop(Parent(Queued, 1, Some(""), -1), map[CHUNK_ID := ChunkRow(Completed, Some(NODE), 0)],
                           Working([], [Parent(Queued, 1, Some(""), -1)], [], SNAPSHOT),
                           [DONE_POLL, Calls([]), Calls([])] + [ChunkReported(ID)], multiset{}, multiset{CHUNK_ID}))
  {
    var t := Parent(Queued, 1, Some(""), -1);
    var c, d := ChunkRow(Running, Some(NODE), -1), ChunkRow(Completed, Some(NODE), 0);
    var handlers := [DONE_POLL, Calls([]), Calls([])];
    ParentRetried();
    CycleStarts(t, map[CHUNK_ID := c], handlers, multiset{CHUNK_ID});
    var s := Shop(t, map[CHUNK_ID := c], Working([], [t], [], SNAPSHOT), handlers, multiset{}, multiset{CHUNK_ID});
    Reported(s);
    assert map[CHUNK_ID := c][CHUNK_ID := d] == map[CHUNK_ID := d];
  }

  lemma Reported(s: Machine)
    requires Reachable(s) && CHUNK_ID in s.db.chunks
    ensures Reachable(s.(db :=
      s.db.(chunks := s.db.chunks[CHUNK_ID := ChunkMoved(s.db.chunks[CHUNK_ID], Completed, 0)]),
                         handlers := s.handlers + [ChunkReported(ID)]))
  {
    RoundTrip("replica", ID, 0);
    NextReachable(s, ByRequest(RequestStep.Report(CHUNK_ID, Completed, 0)),
      s.(db := SetChunkStatus(s.db, CHUNK_ID, Completed, 0), handlers := s.handlers + [ChunkReported(ID)]));
  }

  /** The table when the one chunk is done. */
  function DoneChunk(): map<string, Chunk> {
    map[CHUNK_ID := ChunkRow(Completed, Some(NODE), 0)]
  }

  /** The handler sees all chunks done. */
  lemma ChunksChecked(t: Task, p: Interleaving.Scheduler, handlers: seq<Handler>)
    requires |handlers| == 3
    requires Reachable(Shop(t, DoneChunk(), p, handlers + [ChunkReported(ID)], multiset{}, multiset{CHUNK_ID}))
    ensures Reachable(Shop(t, DoneChunk(), p, handlers + [Calls([Finish(ID, 0)])], multiset{}, multiset{CHUNK_ID}))
  {
    var s := Shop(t, DoneChunk(), p, handlers + [ChunkReported(ID)], multiset{}, multiset{CHUNK_ID});
    assert AllChunksDone(s.db, ID) by {
      assert CHUNK_ID in s.db.chunks && s.db.chunks[CHUNK_ID].parent == ID;
    }
    assert s.handlers[3 := Calls([Finish(ID, 0)])] == handlers + [Calls([Finish(ID, 0)])];
    NextReachable(s, ByRequest(CheckChunks(3)), s.(handlers := handlers + [Calls([Finish(ID, 0)])]));
  }

  /** And writes the result. */
  lemma ResultWritten(t: Task, p: Interleaving.Scheduler, handlers: seq<Handler>)
    requires |handlers| == 3
    requires Reachable(Shop(t, DoneChunk(), p, handlers + [Calls([Finish(ID, 0)])], multiset{}, multiset{CHUNK_ID}))
    ensures Reachable(Shop(Finished(t, 0), DoneChunk(), p, handlers + [Calls([])], multiset{}, multiset{CHUNK_ID}))
  {
    var s := Shop(t, DoneChunk(), p, handlers + [Calls([Finish(ID, 0)])], multiset{}, multiset{CHUNK_ID});
    assert [Finish(ID, 0)][1..] == [] && map[ID := t][ID := Finished(t, 0)] == map[ID := Finished(t, 0)];
    assert s.handlers[3 := Calls([])] == handlers + [Calls([])];
    NextReachable(s, ByRequest(HandlerCall(3)),
      Shop(Finished(t, 0), DoneChunk(), p, handlers + [Calls([])], multiset{}, multiset{CHUNK_ID}));
  }

  /** The parent is completed. */
  lemma ParentCompleted()
    ensures Reachable(Shop(Parent(Completed, 1, Some(""), 0), DoneChunk(),
                           Working([], [Parent(Queued, 1, Some(""), -1)], [], SNAPSHOT),
                           [DONE_POLL, Calls([]), Calls([])] + [Calls([])], multiset{}, multiset{CHUNK_ID}))
  {
    var t := Parent(Queued, 1, Some(""), -1);
    var handlers := [DONE_POLL, Calls([]), Calls([])];
    ChunkReportedLate();
    ChunksChecked(t, Working([], [t], [], SNAPSHOT), handlers);
    ResultWritten(t, Working([], [t], [], SNAPSHOT), handlers);
  }

  /** A cycle that goes on to split a parent whose chunk is done leaves it stranded. */
  lemma SplitOverDone(t: Task, u: Task, handlers: seq<Handler>) returns (s: Machine)
    requires IsParent(t) && u.id == ID && forall h | 0 <= h < |handlers| :: !Finishes(handlers[h], ID)
    requires Reachable(Shop(u, DoneChunk(), Working([], [t], [], SNAPSHOT), handlers, multiset{}, multiset{CHUNK_ID}))
    ensures Reachable(s) && Stranded(s, ID)
  {
    SplitDecided(t, u, DoneChunk(), handlers, multiset{CHUNK_ID});
    ChunkInserted(u, DoneChunk(), handlers, multiset{CHUNK_ID});
    assert CHUNK_ID != "";
    assert InsertChunk(DoneChunk(), ChunkRow(Queued, None, 0)) == DoneChunk();
    Marked(u, DoneChunk(), handlers, multiset{CHUNK_ID});
    s := Shop(u.(status := Splitting), DoneChunk(), Working([], [], [], SNAPSHOT), handlers, multiset{},
              multiset{CHUNK_ID});
    assert CHUNK_ID in s.db.chunks && s.db.chunks[CHUNK_ID].parent == ID;
  }

  /** The scheduler goes on with the parent as it read it: the chunk is there already, and the completed
      parent is put back in splitting, with all its chunks done and nobody left to complete it. */
  lemma ParentStranded() returns (s: Machine)
    ensures Reachable(s) && Stranded(s, ID)
  {
    ParentCompleted();
    s := SplitOverDone(Parent(Queued, 1, Some(""), -1), Parent(Completed, 1, Some(""), 0),
                       [DONE_POLL, Calls([]), Calls([])] + [Calls([])]);
  }

  // ---------- stranded without a stale read of the scheduler ----------

  /** A manual retry has seen the parent cancelled when the last chunk is reported. */
  lemma RetryPending()
    ensures Reachable(Shop(Parent(Cancelled, 0, None, -1), DoneChunk(), Idle,
                           [DONE_POLL, Calls([]), Calls([Requeue(ID)])] + [ChunkReported(ID)],
                           multiset{}, multiset{CHUNK_ID}))
  {
    var t, c := Parent(Cancelled, 0, None, -1), ChunkRow(Running, Some(NODE), -1);
    var handlers := [DONE_POLL, Calls([]), Calls([Requeue(ID)])];
    ParentCancelled();
    var s0 := Shop(t, map[CHUNK_ID := c], Idle, [DONE_POLL, Calls([])], multiset{}, multiset{CHUNK_ID});
    var s1 := s0.(handlers := handlers);
    NextReachable(s0, ByRequest(RetryRead(ID)), s1);
    Reported(s1);
    assert map[CHUNK_ID := c][CHUNK_ID := ChunkRow(Completed, Some(NODE), 0)] == DoneChunk();
  }

  /** The parent is completed, and then put back in the queue by the retry. */
  lemma CompletedIsRequeued()
    ensures Reachable(Shop(Parent(Queued, 1, Some(""), 0), DoneChunk(), Idle,
                           [DONE_POLL, Calls([]), Calls([]), Calls([])], multiset{}, multiset{CHUNK_ID}))
  {
    var t, u := Parent(Cancelled, 0, None, -1), Parent(Completed, 0, None, 0);
    var handlers := [DONE_POLL, Calls([]), Calls([Requeue(ID)])];
    RetryPending();
    ChunksChecked(t, Idle, handlers);
    ResultWritten(t, Idle, handlers);
    var s := Shop(u, DoneChunk(), Idle, handlers + [Calls([])], multiset{}, multiset{CHUNK_ID});
    assert [Requeue(ID)][1..] == [] && map[ID := u][ID := Requeued(u)] == map[ID := Requeued(u)];
    assert s.handlers[2 := Calls([])] == [DONE_POLL, Calls([]), Calls([]), Calls([])];
    NextReachable(s, ByRequest(HandlerCall(2)),
      Shop(Requeued(u), DoneChunk(), Idle, [DONE_POLL, Calls([]), Calls([]), Calls([])], multiset{},
           multiset{CHUNK_ID}));
  }

  /** Only then does the scheduler read it, and strands it. */
  lemma ParentStrandedByRetry() returns (s: Machine)
    ensures Reachable(s) && Stranded(s, ID)
  {
    var t := Parent(Queued, 1, Some(""), 0);
    var handlers := [DONE_POLL, Calls([]), Calls([]), Calls([])];
    CompletedIsRequeued();
    CycleStarts(t, DoneChunk(), handlers, multiset{CHUNK_ID});
    s := SplitOverDone(t, t, handlers);
  }

  // ---------- one chunk, handed out twice ----------

  /** Two polls read the chunk before either hands it out. */
  lemma ChunkReadTwice(t: Task)
    requires t == Parent(Splitting, 0, None, -1)
    ensures Reachable(Shop(t, map[CHUNK_ID := ChunkRow(Scheduled, Some(NODE), -1)], Idle,
                           [Polling(NODE, [], [CHUNK_ID]), Polling(NODE, [], [CHUNK_ID])], multiset{}, multiset{}))
  {
    NoTasksReadTwice(t);
    var reading, polling := PollRead(NODE, []), Polling(NODE, [], [CHUNK_ID]);
    var s0 := Shop(t, map[CHUNK_ID := ChunkRow(Scheduled, Some(NODE), -1)], Idle, [reading, reading], multiset{},
                   multiset{});
    assert Lists([CHUNK_ID], HandedChunksOf(s0.db, NODE)) by {
      assert HandedChunksOf(s0.db, NODE) == {CHUNK_ID} && [CHUNK_ID][0] == CHUNK_ID;
    }
    NextReachable(s0, ByRequest(PollChunks(0, [CHUNK_ID])), s0.(handlers := [polling, reading]));
    NextReachable(s0.(handlers := [polling, reading]), ByRequest(PollChunks(1, [CHUNK_ID])),
                  s0.(handlers := [polling, polling]));
  }

  lemma NoTasksReadTwice(t: Task)
    requires t == Parent(Splitting, 0, None, -1)
    ensures Reachable(Shop(t, map[CHUNK_ID := ChunkRow(Scheduled, Some(NODE), -1)], Idle,
                           [PollRead(NODE, []), PollRead(NODE, [])],
                           multiset{}, multiset{}))
  {
    var reading := PollRead(NODE, []);
    ChunkPlaced();
    var s0 := Shop(t, map[CHUNK_ID := ChunkRow(Scheduled, Some(NODE), -1)], Idle, [], multiset{}, multiset{});
    assert Lists([], PendingTasks(s0.db, NODE));
    NextReachable(s0, ByRequest(PollTasks(NODE, [])), s0.(handlers := [reading]));
    NextReachable(s0.(handlers := [reading]), ByRequest(PollTasks(NODE, [])), s0.(handlers := [reading, reading]));
  }

  /** Two polls of a node that overlap hand out a chunk twice; its parent was never retried. */
  lemma ChunkHandedOutTwice() returns (s: Machine)
    ensures Reachable(s) && CHUNK_ID in s.db.chunks && s.handedChunks[CHUNK_ID] == 2
    ensures ID in s.db.tasks && s.db.tasks[ID].retryCount == 0
  {
    var t := Parent(Splitting, 0, None, -1);
    var ready, running := map[CHUNK_ID := ChunkRow(Scheduled, Some(NODE), -1)],
      map[CHUNK_ID := ChunkRow(Running, Some(NODE), -1)];
    var full := Polling(NODE, [], [CHUNK_ID]);
    ChunkReadTwice(t);
    var s0 := Shop(t, ready, Idle, [full, full], multiset{}, multiset{});
    var s1 := Shop(t, running, Idle, [DONE_POLL, full], multiset{}, multiset{CHUNK_ID});
    s := Shop(t, running, Idle, [DONE_POLL, DONE_POLL], multiset{}, multiset{CHUNK_ID, CHUNK_ID});
    ChunkGiven(s0, 0, s1);
    ChunkGiven(s1, 1, s);
  }
}
