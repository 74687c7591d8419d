/** The heartbeat sweep (controller/scheduler/scheduler.go:317-373). */
module Heartbeats {
  import opened Records
  import opened TaskStore

  /** Thirty seconds, in nanoseconds. */
  const TIMEOUT := 30_000_000_000

  /** An online non-controller node that has been silent for longer than the timeout. */
  predicate Silent(n: NodeRow, now: int) {
    n.role != Controller && n.status == Online && now - n.lastHeartbeat > TIMEOUT
  }

  /** A running task of a lost node: back to the queue while retries are left, else failed. */
  function Rescued(t: Task): Task {
    if t.retryCount < t.retryMax then Requeued(t) else Finished(t, 1)
  }

  /** The task runs on a node in `lost`. */
  predicate RunsOn(t: Task, lost: set<string>) {
    t.status == Running && TextOf(t.assignedNode) in lost
  }

  ghost predicate TasksRescued(before: map<string, Task>, after: map<string, Task>, lost: set<string>) {
    && after.Keys == before.Keys
    && forall id | id in before :: after[id] == if RunsOn(before[id], lost) then Rescued(before[id]) else before[id]
  }

  function SilentNodes(db: Db, now: int): set<string> {
    set id | id in db.nodes && Silent(db.nodes[id], now)
  }

  ghost predicate NodesMarked(before: map<string, NodeRow>, after: map<string, NodeRow>, lost: set<string>) {
    && after.Keys == before.Keys
    && forall id | id in before :: after[id] == if id in lost then before[id].(status := Offline) else before[id]
  }

  /** What a sweep at a fixed time does: exactly the silent nodes go offline, every running task of
      such a node is rescued once, and nothing else changes. */
  ghost predicate Sweep(before: Db, after: Db, now: int) {
    && NodesMarked(before.nodes, after.nodes, SilentNodes(before, now))
    && TasksRescued(before.tasks, after.tasks, SilentNodes(before, now))
    && after.chunks == before.chunks && after.metrics == before.metrics
  }

  /** The same by the clock: afterwards no online worker is silent for over 30 seconds, a node row changes
      exactly if it is one that was, and then goes offline; a running task changes exactly if its node is
      such a row, and then is queued again, one retry higher, or failed. */
  lemma SweepByTheClock(before: Db, after: Db, now: int)
    requires Sweep(before, after, now)
    ensures forall id | id in after.nodes && after.nodes[id].status == Online && after.nodes[id].role != Controller ::
      now - after.nodes[id].lastHeartbeat <= 30_000_000_000
    ensures forall id | id in before.nodes ::
      var n := before.nodes[id];
      && id in after.nodes
      && (after.nodes[id] != n <==>
            n.role != Controller && n.status == Online && now - n.lastHeartbeat > 30_000_000_000)
      && (after.nodes[id] != n ==> after.nodes[id] == n.(status := Offline))
    ensures forall id | id in before.tasks ::
      var t := before.tasks[id];
      && id in after.tasks
      && (after.tasks[id] != t <==>
            && t.status == Running && TextOf(t.assignedNode) in before.nodes
            && var n := before.nodes[TextOf(t.assignedNode)];
               n.role != Controller && n.status == Online && now - n.lastHeartbeat > 30_000_000_000)
      && (after.tasks[id] != t && t.retryCount < t.retryMax ==>
            && after.tasks[id].status == Queued && after.tasks[id].retryCount == t.retryCount + 1
            && TextOf(after.tasks[id].assignedNode) == "")
      && (after.tasks[id] != t && t.retryCount >= t.retryMax ==>
            && after.tasks[id] == t.(status := Failed, exitCode := 1))
  {
  }

  lemma SweepIsDeterministic(before: Db, a: Db, b: Db, now: int)
    requires Sweep(before, a, now) && Sweep(before, b, now)
    ensures a == b
  {
    assert a.nodes == b.nodes && a.tasks == b.tasks;
  }

  /** A second sweep at the same time finds nothing left to do. */
  lemma SweepIsIdempotent(before: Db, middle: Db, after: Db, now: int)
    requires Sweep(before, middle, now) && Sweep(middle, after, now)
    ensures after == middle
  {
    assert SilentNodes(middle, now) == {};
    assert after.nodes == middle.nodes && after.tasks == middle.tasks;
  }

  /** Rescuing for one more lost node. */
  lemma OneMoreNode(before: map<string, Task>, middle: map<string, Task>, after: map<string, Task>,
                    lost: set<string>, id: string)
    requires TasksRescued(before, middle, lost) && TasksRescued(middle, after, {id}) && id !in lost
    ensures TasksRescued(before, after, lost + {id})
  {
  }

  /** The task table after the rows `ids` have been looked at for node `nodeId`. */
  ghost predicate LookedAt(before: map<string, Task>, ids: seq<string>, nodeId: string, now: map<string, Task>) {
    && now.Keys == before.Keys
    && forall id | id in before ::
         now[id] == if id in ids && RunsOn(before[id], {nodeId}) then Rescued(before[id]) else before[id]
  }

  lemma LookAtNext(before: map<string, Task>, ids: seq<string>, nodeId: string, now: map<string, Task>, id: string)
    requires LookedAt(before, ids, nodeId, now) && id in before && id !in ids && before[id].status == Running
    ensures LookedAt(before, ids + [id], nodeId,
              if TextOf(before[id].assignedNode) == nodeId then now[id := Rescued(before[id])] else now)
  {
    assert forall k :: k in ids + [id] <==> k in ids || k == id;
  }

  /** rescheduleNodeTasks */
  method RescheduleNodeTasks(store: Store, nodeId: string)
    requires Keyed(store.View())
    modifies store
    ensures TasksRescued(old(store.tasks), store.tasks, {nodeId})
    ensures store.View() == old(store.View()).(tasks := store.tasks)
  {
    var ids, rows := store.ListRunningTasks();
    ghost var was := store.tasks;
    for i := 0 to |ids|
      invariant store.View() == old(store.View()).(tasks := store.tasks)
      invariant LookedAt(was, ids[..i], nodeId, store.tasks)
    {
      var task := rows[i];
      LookAtNext(was, ids[..i], nodeId, store.tasks, ids[i]);
      assert ids[..i] + [ids[i]] == ids[..i + 1];
      assert task.id == ids[i] && store.tasks[ids[i]] == task;
      if TextOf(task.assignedNode) != nodeId {
        continue;
      }
      if task.retryCount < task.retryMax {
        store.IncrementTaskRetry(task.id);
      } else {
        store.UpdateTaskResult(task.id, 1);
      }
    }
    assert ids[..|ids|] == ids;
    assert forall id | id in was && was[id].status == Running :: id in ids;
  }

  /** The store after the nodes `ids` have been looked at. */
  ghost predicate SweptSoFar(before: Db, ids: seq<string>, now: int, db: Db) {
    var lost := set id | id in before.nodes && id in ids && Silent(before.nodes[id], now);
    && NodesMarked(before.nodes, db.nodes, lost)
    && TasksRescued(before.tasks, db.tasks, lost)
    && db.chunks == before.chunks && db.metrics == before.metrics
  }

  lemma NextNode(before: Db, ids: seq<string>, now: int, middle: Db, id: string, after: Db)
    requires SweptSoFar(before, ids, now, middle) && id in before.nodes && id !in ids
    requires !Silent(before.nodes[id], now) ==> after == middle
    requires Silent(before.nodes[id], now) ==>
      && after == SetNodeStatus(middle, id, Offline).(tasks := after.tasks)
      && TasksRescued(middle.tasks, after.tasks, {id})
    ensures SweptSoFar(before, ids + [id], now, after)
  {
    var lost := set k | k in before.nodes && k in ids && Silent(before.nodes[k], now);
    var lost' := set k | k in before.nodes && k in ids + [id] && Silent(before.nodes[k], now);
    if Silent(before.nodes[id], now) {
      assert lost' == lost + {id};
      OneMoreNode(before.tasks, middle.tasks, after.tasks, lost, id);
    } else {
      assert lost' == lost;
    }
  }

  lemma SweptAll(before: Db, ids: seq<string>, now: int, after: Db)
    requires SweptSoFar(before, ids, now, after) && Lists(ids, before.nodes.Keys)
    ensures Sweep(before, after, now)
  {
    assert (set id | id in before.nodes && id in ids && Silent(before.nodes[id], now)) == SilentNodes(before, now);
  }

  lemma SweptKeyed(before: Db, ids: seq<string>, now: int, db: Db)
    requires Keyed(before) && SweptSoFar(before, ids, now, db)
    ensures Keyed(db)
  {
  }

  /** One turn of the node loop. */
  method NodeTurn(store: Store, node: NodeRow, now: int)
    requires Keyed(store.View()) && node.id in store.nodes
    modifies store
    ensures !Silent(node, now) ==> store.View() == old(store.View())
    ensures Silent(node, now) ==>
      && store.View() == SetNodeStatus(old(store.View()), node.id, Offline).(tasks := store.tasks)
      && TasksRescued(old(store.tasks), store.tasks, {node.id})
  {
    if node.role == Controller {
      return;
    }
    if node.status == Online && now - node.lastHeartbeat > TIMEOUT {
      store.UpdateNodeStatus(node.id, Offline);
      RescheduleNodeTasks(store, node.id);
    }
  }

  /** checkHeartbeats at time `now`. */
  method CheckHeartbeats(store: Store, now: int)
    requires Keyed(store.View())
    modifies store
    ensures Sweep(old(store.View()), store.View(), now)
  {
    ghost var was := store.View();
    var ids, rows := store.ListNodes();
    for i := 0 to |ids|
      invariant SweptSoFar(was, ids[..i], now, store.View())
    {
      ghost var middle := store.View();
      SweptKeyed(was, ids[..i], now, middle);
      assert ids[i] !in ids[..i] && rows[i].id == ids[i];
      NodeTurn(store, rows[i], now);
      NextNode(was, ids[..i], now, middle, ids[i], store.View());
      assert ids[..i] + [ids[i]] == ids[..i + 1];
    }
    assert ids[..|ids|] == ids;
    SweptAll(was, ids, now, store.View());
  }
}
