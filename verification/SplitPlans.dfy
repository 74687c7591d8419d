/** Splitter.SplitTask: which chunks a split task is cut into (controller/splitter/splitter.go:30-320). */
module SplitPlans {
  import opened Records
  import opened Text
  import opened ChunkIds
  import opened Slices
  import opened FileSplitting

  /** What the splitter reads besides the task: the files it can open and how many online worker
      nodes there are. */
  datatype World = World(files: map<string, Bytes>, workers: nat)

  datatype SplitError =
    | InputFileRequired | CannotOpen | LineTooLong | InputEmpty
    | TooFewStages | NoWorkers | UnknownStrategy

  const BASE_DIR := "/tmp/constellation/tasks"
  const DEFAULT_CHUNK_SIZE := 10000

  function TaskDir(id: string): string { Under(BASE_DIR, id) }
  function InputDir(id: string): string { Under(TaskDir(id), "input") }
  function OutputDir(id: string): string { Under(TaskDir(id), "output") }
  function PipelineDir(id: string): string { Under(TaskDir(id), "pipeline") }

  /** The prefix of the chunk IDs of each strategy. */
  function PrefixOf(strategy: string): string {
    if strategy == "map-reduce" then "map"
    else if strategy == "pipeline" then "pipe"
    else if strategy == "replicated" then "replica"
    else "chunk"
  }

  /** Chunk i of a task as the strategy builds it. */
  function PlannedChunk(task: Task, i: nat): Chunk {
    var (input, output) :=
      if task.splitStrategy == "pipeline" then
        (if i == 0 then task.inputFile else StageFile(PipelineDir(task.id), i - 1), StageFile(PipelineDir(task.id), i))
      else if task.splitStrategy == "replicated" then
        (task.inputFile, ReplicaFile(OutputDir(task.id), i))
      else
        (ChunkFile(InputDir(task.id), i), ResultFile(OutputDir(task.id), i));
    Chunk(ChunkId(PrefixOf(task.splitStrategy), task.id, i), task.id, i, None, Queued, input, output, 0)
  }

  function PlannedChunks(task: Task, n: nat): (chunks: seq<Chunk>)
    ensures |chunks| == n && forall i | 0 <= i < n :: chunks[i] == PlannedChunk(task, i)
  {
    seq(n, i requires 0 <= i < n => PlannedChunk(task, i))
  }

  function ChunkSizeOf(task: Task): (size: nat)
    ensures size > 0
  {
    if task.chunkSize <= 0 then DEFAULT_CHUNK_SIZE else task.chunkSize
  }

  /** How many pieces the input file is cut into; any split_by but "size" means by lines. */
  function FilePieces(task: Task, w: World): Result<nat, SplitError> {
    if task.inputFile == "" then Failure(InputFileRequired)
    else if task.inputFile !in w.files then Failure(CannotOpen)
    else
      var data := w.files[task.inputFile];
      if task.splitBy == "size" then Success(PartCount(|data|, ChunkSizeOf(task)))
      else if HasLongLine(data) then Failure(LineTooLong)
      else if Lines(data) == [] then Failure(InputEmpty)
      else Success(PartCount(|Lines(data)|, ChunkSizeOf(task)))
  }

  /** How many chunks a task is split into. */
  function Pieces(task: Task, w: World): Result<nat, SplitError> {
    if task.splitStrategy == "chunk" || task.splitStrategy == "map-reduce" then FilePieces(task, w)
    else if task.splitStrategy == "pipeline" then
      var stages := |SplitOn(task.command, '|')|;
      if stages < 2 then Failure(TooFewStages) else Success(stages)
    else if task.splitStrategy == "replicated" then
      var n := if 0 < task.maxNodes < w.workers then task.maxNodes else w.workers;
      if n == 0 then Failure(NoWorkers) else Success(n)
    else Failure(UnknownStrategy)
  }

  /** The result of SplitTask. */
  function SplitPlan(task: Task, w: World): Result<seq<Chunk>, SplitError> {
    match Pieces(task, w)
    case Success(n) => Success(PlannedChunks(task, n))
    case Failure(e) => Failure(e)
  }

  // ---------- the methods ----------

  /** What is on disk in the input files of the chunks. */
  ghost function InputsOf(disk: map<string, Bytes>, chunks: seq<Chunk>): (files: seq<Bytes>)
    requires forall c | c in chunks :: c.inputFile in disk
    ensures |files| == |chunks|
  {
    seq(|chunks|, i requires 0 <= i < |chunks| => disk[chunks[i].inputFile])
  }

  /** The input file is cut as its task asks: `size` lines or bytes to a chunk, 10000 by default. */
  ghost predicate CutAsAsked(task: Task, data: Bytes, files: seq<Bytes>) {
    var size: nat := if task.chunkSize > 0 then task.chunkSize else 10000;
    if task.splitBy == "size" then SlicesOf(data, size, files) && Flatten(files) == data
    else
      && Flatten(files) == Terminated(Lines(data))
      && forall lines, tokens | HasLines(data, lines) && WithoutCR(lines, tokens) :: FilesOf(tokens, size, files)
  }

  /** The pieces of the file, by lines or by size. */
  method CutFile(task: Task, data: Bytes) returns (r: Result<seq<Bytes>, SplitError>)
    ensures r.Success? ==> CutAsAsked(task, data, r.value)
    ensures r.Success? && task.splitBy == "size" ==> |r.value| == PartCount(|data|, ChunkSizeOf(task))
    ensures r.Success? && task.splitBy != "size" ==>
      !HasLongLine(data) && Lines(data) != [] && |r.value| == PartCount(|Lines(data)|, ChunkSizeOf(task))
    ensures r.Failure? ==> task.splitBy != "size" && if HasLongLine(data) then r.error == LineTooLong
      else Lines(data) == [] && r.error == InputEmpty
  {
    var chunkSize := if task.chunkSize <= 0 then DEFAULT_CHUNK_SIZE else task.chunkSize;
    if task.splitBy == "size" {
      var files := SplitBySize(data, chunkSize);
      return Success(files);
    }
    var lineSplit := SplitByLines(data, chunkSize);
    match lineSplit {
      case TooLong => return Failure(LineTooLong);
      case Empty => return Failure(InputEmpty);
      case LineFiles(files) =>
        LineFilesLossless(data, chunkSize, files);
        return Success(files);
    }
  }

  /** chunkSplit, which map-reduce reuses under its own strategy name before relabelling; `disk` is what
      it writes. */
  method ChunkSplit(task: Task, w: World) returns (r: Result<seq<Chunk>, SplitError>, disk: map<string, Bytes>)
    ensures r.Failure? <==> FilePieces(task, w).Failure?
    ensures r.Failure? ==> r.error == FilePieces(task, w).error
    ensures r == Failure(InputFileRequired) <==> task.inputFile == ""
    ensures r == Failure(CannotOpen) <==> task.inputFile != "" && task.inputFile !in w.files
    ensures r.Success? ==> r.value == PlannedChunks(task.(splitStrategy := "chunk"), FilePieces(task, w).value)
    ensures r.Success? ==>
      && task.inputFile in w.files && (forall c | c in r.value :: c.inputFile in disk)
      && CutAsAsked(task, w.files[task.inputFile], InputsOf(disk, r.value))
  {
    disk := map[];
    if task.inputFile == "" {
      return Failure(InputFileRequired), disk;
    }
    if task.inputFile !in w.files {
      return Failure(CannotOpen), disk;
    }
    var cut := CutFile(task, w.files[task.inputFile]);
    if cut.Failure? {
      return Failure(cut.error), disk;
    }
    var chunks;
    chunks, disk := WriteInputs(task, cut.value);
    assert InputsOf(disk, chunks) == cut.value;
    return Success(chunks), disk;
  }

  /** Chunk i gets piece i in its input file. */
  method WriteInputs(task: Task, pieces: seq<Bytes>) returns (chunks: seq<Chunk>, disk: map<string, Bytes>)
    ensures chunks == PlannedChunks(task.(splitStrategy := "chunk"), |pieces|)
    ensures forall i | 0 <= i < |pieces| :: chunks[i].inputFile in disk && disk[chunks[i].inputFile] == pieces[i]
  {
    chunks, disk := [], map[];
    for i := 0 to |pieces|
      invariant chunks == PlannedChunks(task.(splitStrategy := "chunk"), i)
      invariant forall k | 0 <= k < i ::
        chunks[k].inputFile == ChunkFile(InputDir(task.id), k) && chunks[k].inputFile in disk &&
        disk[chunks[k].inputFile] == pieces[k]
    {
      var file := ChunkFile(InputDir(task.id), i);
      forall k | 0 <= k < i
        ensures ChunkFile(InputDir(task.id), k) != file
      {
        PaddedNamesInjective(InputDir(task.id), k, i);
      }
      disk := disk[file := pieces[i]];
      chunks := chunks + [Chunk(ChunkId("chunk", task.id, i), task.id, i, None, Queued,
                                file, ResultFile(OutputDir(task.id), i), 0)];
    }
  }

  method SplitTask(task: Task, w: World) returns (r: Result<seq<Chunk>, SplitError>)
    ensures r == SplitPlan(task, w)
  {
    if task.splitStrategy == "chunk" {
      var disk;
      r, disk := ChunkSplit(task, w);
      assert task.(splitStrategy := "chunk") == task;
    } else if task.splitStrategy == "map-reduce" {
      r := MapReduceSplit(task, w);
    } else if task.splitStrategy == "pipeline" {
      r := PipelineSplit(task);
    } else if task.splitStrategy == "replicated" {
      r := ReplicatedSplit(task, w.workers);
    } else {
      r := Failure(UnknownStrategy);
    }
  }

  method MapReduceSplit(task: Task, w: World) returns (r: Result<seq<Chunk>, SplitError>)
    requires task.splitStrategy == "map-reduce"
    ensures r == SplitPlan(task, w)
  {
    var disk;
    r, disk := ChunkSplit(task, w);
    if r.Success? {
      var chunks := r.value;
      for i := 0 to |chunks|
        invariant |chunks| == |r.value|
        invariant forall k | 0 <= k < i :: chunks[k] == PlannedChunk(task, k)
        invariant forall k | i <= k < |chunks| :: chunks[k] == r.value[k]
      {
        chunks := chunks[i := chunks[i].(id := ChunkId("map", task.id, i))];
      }
      assert chunks == PlannedChunks(task, |chunks|);
      r := Success(chunks);
    }
  }

  method PipelineSplit(task: Task) returns (r: Result<seq<Chunk>, SplitError>)
    requires task.splitStrategy == "pipeline"
    ensures forall w :: r == SplitPlan(task, w)
  {
    var commands := SplitOn(task.command, '|');
    if |commands| < 2 {
      return Failure(TooFewStages);
    }
    var chunks: seq<Chunk> := [];
    for i := 0 to |commands|
      invariant chunks == PlannedChunks(task, i)
    {
      var inputFile := task.inputFile;
      if i > 0 {
        inputFile := StageFile(PipelineDir(task.id), i - 1);
      }
      var outputFile := StageFile(PipelineDir(task.id), i);
      chunks := chunks + [Chunk(ChunkId("pipe", task.id, i), task.id, i, None, Queued, inputFile, outputFile, 0)];
    }
    return Success(chunks);
  }

  method ReplicatedSplit(task: Task, workers: nat) returns (r: Result<seq<Chunk>, SplitError>)
    requires task.splitStrategy == "replicated"
    ensures forall w: World | w.workers == workers :: r == SplitPlan(task, w)
    ensures r.Success? <==> workers > 0
    ensures r.Success? ==> |r.value| == if 0 < task.maxNodes < workers then task.maxNodes else workers
  {
    var numReplicas := workers;
    if task.maxNodes > 0 && task.maxNodes < numReplicas {
      numReplicas := task.maxNodes;
    }
    if numReplicas == 0 {
      return Failure(NoWorkers);
    }
    var chunks: seq<Chunk> := [];
    for i := 0 to numReplicas
      invariant chunks == PlannedChunks(task, i)
    {
      chunks := chunks + [Chunk(ChunkId("replica", task.id, i), task.id, i, None, Queued,
                                task.inputFile, ReplicaFile(OutputDir(task.id), i), 0)];
    }
    return Success(chunks);
  }

  // ---------- what a plan guarantees ----------

  lemma PrefixLegal(strategy: string)
    ensures LegalPrefix(PrefixOf(strategy))
  {
  }

  /** The chunks of a plan are numbered, belong to the task, wait for a node, have pairwise distinct IDs and
      write pairwise distinct files; where the input file is cut they also read pairwise distinct ones. */
  lemma PlanIsWellFormed(task: Task, w: World)
    requires SplitPlan(task, w).Success?
    ensures var chunks := SplitPlan(task, w).value;
      && (forall c | c in chunks :: c.parent == task.id && c.status == Queued && c.assignedNode == None)
      && (forall i | 0 <= i < |chunks| :: chunks[i].index == i)
      && (forall i, j | 0 <= i < j < |chunks| ::
            && chunks[i].id != chunks[j].id && chunks[i].outputFile != chunks[j].outputFile
            && (task.splitStrategy == "chunk" || task.splitStrategy == "map-reduce" ==>
                  chunks[i].inputFile != chunks[j].inputFile))
  {
    var chunks := SplitPlan(task, w).value;
    forall i, j | 0 <= i < j < |chunks|
      ensures chunks[i].id != chunks[j].id && chunks[i].outputFile != chunks[j].outputFile
      ensures task.splitStrategy == "chunk" || task.splitStrategy == "map-reduce" ==>
        chunks[i].inputFile != chunks[j].inputFile
    {
      PlannedApart(task, i, j);
      PaddedNamesInjective(InputDir(task.id), i, j);
    }
  }

  /** Each chunk ID names strategy, task and index. */
  lemma PlanIdsAre(task: Task, w: World, i: nat)
    requires SplitPlan(task, w).Success? && i < |SplitPlan(task, w).value|
    ensures SplitPlan(task, w).value[i].id ==
      (match task.splitStrategy
       case "map-reduce" => "map"
       case "pipeline" => "pipe"
       case "replicated" => "replica"
       case _ => "chunk") + "-" + (task.id + "-" + Decimal(i))
  {
    IdText(PrefixOf(task.splitStrategy), task.id, i);
  }

  lemma IdText(prefix: string, parent: string, i: nat)
    ensures ChunkId(prefix, parent, i) == prefix + "-" + (parent + "-" + Decimal(i))
  {
  }

  /** And leads back to the task when a result comes in. */
  lemma PlanIdsLeadBack(task: Task, w: World, i: nat)
    requires SplitPlan(task, w).Success? && i < |SplitPlan(task, w).value| && IsTaskId(task.id)
    ensures IsChunkId(SplitPlan(task, w).value[i].id) == Some(true)
    ensures ParentOf(SplitPlan(task, w).value[i].id) == Some(task.id)
  {
    PrefixLegal(task.splitStrategy);
    RoundTrip(PrefixOf(task.splitStrategy), task.id, i);
  }

  /** Replicas all read the task's own input. */
  lemma ReplicasReadTaskInput(task: Task, w: World)
    requires task.splitStrategy == "replicated" && SplitPlan(task, w).Success?
    ensures forall c | c in SplitPlan(task, w).value :: c.inputFile == task.inputFile
  {
  }

  lemma PlannedApart(task: Task, i: nat, j: nat)
    requires i != j
    ensures PlannedChunk(task, i).id != PlannedChunk(task, j).id
    ensures PlannedChunk(task, i).outputFile != PlannedChunk(task, j).outputFile
  {
    var p := PrefixOf(task.splitStrategy);
    PrefixLegal(task.splitStrategy);
    if ChunkId(p, task.id, i) == ChunkId(p, task.id, j) {
      ChunkIdInjective(p, task.id, i, p, task.id, j);
    }
    PaddedNamesInjective(OutputDir(task.id), i, j);
    PlainNamesInjective(OutputDir(task.id), i, j);
    PlainNamesInjective(PipelineDir(task.id), i, j);
  }

  /** A plan is empty only for an empty file cut by size, the one case in which the splitter
      succeeds without producing a chunk. */
  lemma EmptyPlanExactly(task: Task, w: World)
    ensures SplitPlan(task, w) == Success([]) <==>
      && (task.splitStrategy == "chunk" || task.splitStrategy == "map-reduce")
      && task.inputFile != "" && task.inputFile in w.files
      && task.splitBy == "size" && w.files[task.inputFile] == []
  {
    if task.inputFile in w.files {
      var data := w.files[task.inputFile];
      PartCountBounds(|data|, ChunkSizeOf(task));
      PartCountBounds(|Lines(data)|, ChunkSizeOf(task));
    }
  }

  /** Pipeline stages form a chain: one stage per piece of the command, the pieces rejoin to the
      command, stage 0 reads the task input and stage i exactly what stage i - 1 writes. */
  lemma PipelineIsAChain(task: Task, w: World)
    requires task.splitStrategy == "pipeline"
    ensures SplitPlan(task, w).Success? <==> '|' in task.command
    ensures SplitPlan(task, w).Success? ==>
      var chunks, pieces := SplitPlan(task, w).value, SplitOn(task.command, '|');
      && |chunks| == |pieces| && JoinWith(pieces, '|') == task.command
      && (forall k | 0 <= k < |pieces| :: '|' !in pieces[k])
      && chunks[0].inputFile == task.inputFile
      && forall i | 0 < i < |chunks| :: chunks[i].inputFile == chunks[i - 1].outputFile
  {
    SplitRejoins(task.command, '|');
  }
}
