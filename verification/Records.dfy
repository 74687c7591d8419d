/** The rows the controller works on (controller/state/store.go:25-114) and small result types. */
module Records {

  datatype Option<+T> = None | Some(value: T)

  datatype Result<+R, +E> = Success(value: R) | Failure(error: E)

  /** Task statuses are the nine of the tasks table; chunk statuses are free text, hence `Other`. */
  datatype Status =
    | Submitted | Queued | Splitting | Scheduled | Transferring | Running
    | Completed | Failed | Cancelled | Other(text: string)

  /** Statuses HandleCancelTask refuses to leave. */
  predicate Terminal(s: Status) {
    s == Completed || s == Failed || s == Cancelled
  }

  /** Statuses the chunk counts treat as done. */
  predicate Done(s: Status) {
    s == Completed || s == Failed
  }

  /** Statuses the scheduler picks up. */
  predicate Waiting(s: Status) {
    s == Submitted || s == Queued
  }

  datatype TaskType = Simple | Split

  datatype Task = Task(
    id: string,
    status: Status,
    taskType: TaskType,
    splitStrategy: string,
    command: string,
    cpuRequired: int,
    memoryRequired: int,
    gpuRequired: int,
    priority: string,
    retryMax: int,
    retryCount: int,
    assignedNode: Option<string>,   // None is SQL NULL, which no comparison in a WHERE clause matches
    targetNode: string,
    exitCode: int,
    createdAt: int,
    inputFile: string,
    splitBy: string,
    chunkSize: int,
    maxNodes: int,
    isDistributed: bool,
    worldSize: int)

  datatype Chunk = Chunk(
    id: string,
    parent: string,
    index: nat,
    assignedNode: Option<string>,
    status: Status,
    inputFile: string,
    outputFile: string,
    exitCode: int)

  datatype Role = Controller | Worker

  datatype NodeStatus = Online | Offline | Draining | Maintenance | Discovered

  datatype NodeRow = NodeRow(
    id: string,
    hostname: string,
    role: Role,
    status: NodeStatus,
    cpuCores: int,
    memoryTotal: int,
    gpuCount: int,
    lastHeartbeat: int)

  datatype Metrics = Metrics(
    cpuUsage: real,
    memoryUsage: real,
    diskUsage: real,
    loadAvg1: real,
    loadAvg5: real,
    loadAvg15: real,
    runningTasks: int,
    uptimeSeconds: int,
    cpuTemperature: real)

  const NO_METRICS := Metrics(0.0, 0.0, 0.0, 0.0, 0.0, 0.0, 0, 0, 0.0)

  /** A node as a query returns it: its row with the live metrics attached. */
  datatype Node = Node(row: NodeRow, live: Metrics)

  predicate DistinctIds(nodes: seq<Node>) {
    forall i, j | 0 <= i < j < |nodes| :: nodes[i].row.id != nodes[j].row.id
  }

  /** nullIfEmpty (controller/state/store.go:1195-1200). */
  function NullIfEmpty(s: string): Option<string> {
    if s == "" then None else Some(s)
  }

  /** What Go sees of a nullable text column. */
  function TextOf(cell: Option<string>): string {
    match cell
    case None => ""
    case Some(text) => text
  }

  /** The priorities a submission may name. */
  predicate LegalPriority(p: string) {
    p == "critical" || p == "high" || p == "normal" || p == "low"
  }

  /** How often a task may be put back in the queue automatically: max(retry_max, 0). */
  function RetryBudget(t: Task): nat {
    if t.retryMax > 0 then t.retryMax else 0
  }

  /** A task that goes through the splitter (controller/scheduler/scheduler.go:109). */
  predicate IsSplit(t: Task) {
    t.taskType == Split && t.splitStrategy != ""
  }

  /** A task that is scheduled as a gang (controller/scheduler/scheduler.go:126). */
  predicate IsGang(t: Task) {
    !IsSplit(t) && t.isDistributed && t.worldSize > 1
  }
}
