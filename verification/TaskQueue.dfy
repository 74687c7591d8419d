/** The scheduler's priority queue: Go's container/heap over a slice of items that know their own
    position (controller/scheduler/queue.go). */
module TaskQueue {
  import opened Records
  import opened TaskStore

  function PriorityToInt(p: string): int {
    if p == "critical" then 4
    else if p == "high" then 3
    else if p == "normal" then 2
    else if p == "low" then 1
    else 2
  }

  /** The order of Less on tasks: higher priority first, then earlier creation. */
  predicate Before(a: Task, b: Task) {
    var p, q := PriorityToInt(a.priority), PriorityToInt(b.priority);
    if p != q then p > q else a.createdAt < b.createdAt
  }

  class QueueItem {
    const task: Task
    const priority: int
    var index: int

    constructor (task: Task)
      ensures this.task == task && priority == PriorityToInt(task.priority)
    {
      this.task := task;
      priority := PriorityToInt(task.priority);
      index := 0;
    }
  }

  predicate Less(a: QueueItem, b: QueueItem) {
    if a.priority != b.priority then a.priority > b.priority else a.task.createdAt < b.task.createdAt
  }

  function Parent(k: nat): nat
    requires k > 0
  {
    (k - 1) / 2
  }

  /** Position k is not before its parent. */
  predicate OrderedAt(h: seq<QueueItem>, k: nat)
    requires 1 <= k < |h|
  {
    !Less(h[k], h[Parent(k)])
  }

  ghost predicate HeapOrder(h: seq<QueueItem>, n: nat)
    requires n <= |h|
  {
    forall k | 1 <= k < n :: OrderedAt(h, k)
  }

  /** The children of i are not before i's parent. */
  ghost predicate GrandparentOrder(h: seq<QueueItem>, i: nat, n: nat)
    requires n <= |h|
  {
    forall k | 1 <= k < n && Parent(k) == i && i > 0 :: !Less(h[k], h[Parent(i)])
  }

  function Tasks(h: seq<QueueItem>): (s: seq<Task>)
    ensures |s| == |h|
  {
    seq(|h|, i requires 0 <= i < |h| => h[i].task)
  }

  function Swapped<T>(s: seq<T>, i: nat, j: nat): seq<T>
    requires i < |s| && j < |s|
  {
    s[i := s[j]][j := s[i]]
  }

  /** g holds the items of h in another order, the same from position n on. */
  ghost predicate Rearranged(h: seq<QueueItem>, g: seq<QueueItem>, n: nat) {
    && n <= |h| == |g|
    && h[n..] == g[n..]
    && (forall k | 0 <= k < |g| :: g[k] in h)
    && multiset(Tasks(g)) == multiset(Tasks(h))
  }

  lemma SwapRearranges(f: seq<QueueItem>, h: seq<QueueItem>, i: nat, j: nat, n: nat)
    requires Rearranged(f, h, n) && i < n && j < n
    ensures Rearranged(f, Swapped(h, i, j), n)
  {
    assert Tasks(Swapped(h, i, j)) == Swapped(Tasks(h), i, j);
    assert Swapped(h, i, j)[n..] == h[n..];
  }

  /** No item of a heap is before its root. */
  lemma {:induction false} RootIsFirst(h: seq<QueueItem>, k: nat)
    requires HeapOrder(h, |h|) && k < |h|
    ensures !Less(h[k], h[0])
  {
    if k > 0 {
      assert OrderedAt(h, k);
      RootIsFirst(h, Parent(k));
    }
  }

  /** heap.up with its item at j: only j may be before its parent. */
  ghost predicate UpInv(h: seq<QueueItem>, j: nat, n: nat) {
    && j < n <= |h|
    && (forall k | 1 <= k < n && k != j :: OrderedAt(h, k))
    && GrandparentOrder(h, j, n)
  }

  lemma UpStep(h: seq<QueueItem>, j: nat, n: nat)
    requires UpInv(h, j, n) && j > 0 && Less(h[j], h[Parent(j)])
    ensures UpInv(Swapped(h, Parent(j), j), Parent(j), n)
  {
    var i := Parent(j);
    var g := Swapped(h, i, j);
    forall k | 1 <= k < n && k != i
      ensures OrderedAt(g, k)
    {
      if k != j { assert OrderedAt(h, k); }
    }
    forall k | 1 <= k < n && Parent(k) == i && i > 0
      ensures !Less(g[k], g[Parent(i)])
    {
      assert OrderedAt(h, i);
      if k != j { assert OrderedAt(h, k); }
    }
  }

  /** heap.down that started at i0 with its item now at i: only children of i may be before it,
      and i0 before its parent as long as nothing moved. */
  ghost predicate DownInv(h: seq<QueueItem>, i0: nat, i: nat, n: nat) {
    && i0 <= i <= n <= |h|
    && (forall k | 1 <= k < n && k != i0 && Parent(k) != i :: OrderedAt(h, k))
    && (i > i0 ==> i0 < n && (i0 > 0 ==> OrderedAt(h, i0)))
    && GrandparentOrder(h, i, n)
  }

  lemma DownStep(h: seq<QueueItem>, i0: nat, i: nat, j: nat, n: nat)
    requires DownInv(h, i0, i, n)
    requires 1 <= j < n && Parent(j) == i && Less(h[j], h[i])
    requires forall k | 1 <= k < n && Parent(k) == i :: !Less(h[k], h[j])
    ensures DownInv(Swapped(h, i, j), i0, j, n)
  {
    var g := Swapped(h, i, j);
    forall k | 1 <= k < n && k != i0 && Parent(k) != j
      ensures OrderedAt(g, k)
    {
      if Parent(k) != i { assert OrderedAt(h, k); }
    }
    forall k | 1 <= k < n && Parent(k) == j
      ensures !Less(g[k], g[Parent(j)])
    {
      assert OrderedAt(h, k);
    }
  }

  /** The child that down compares with, and what comparing it settles. */
  lemma BestChild(h: seq<QueueItem>, i: nat, j: nat, n: nat)
    requires 2 * i + 1 < n <= |h|
    requires j == if 2 * i + 2 < n && Less(h[2 * i + 2], h[2 * i + 1]) then 2 * i + 2 else 2 * i + 1
    ensures Parent(j) == i
    ensures forall k | 1 <= k < n && Parent(k) == i :: !Less(h[k], h[j])
    ensures !Less(h[j], h[i]) ==> forall k | 1 <= k < n && Parent(k) == i :: !Less(h[k], h[i])
  {
    forall k | 1 <= k < n && Parent(k) == i
      ensures k == 2 * i + 1 || k == 2 * i + 2
    {
    }
  }

  /** When no child of i is before it, down may stop. */
  lemma DownStop(h: seq<QueueItem>, i0: nat, i: nat, n: nat)
    requires DownInv(h, i0, i, n)
    requires forall k | 1 <= k < n && Parent(k) == i :: !Less(h[k], h[i])
    ensures DownDone(h, i0, i, n)
  {
    forall k | 1 <= k < n && k != i0
      ensures OrderedAt(h, k)
    {
    }
  }

  function LesserChild(h: seq<QueueItem>, i: nat, n: nat): nat
    requires 2 * i + 1 < n <= |h|
  {
    if 2 * i + 2 < n && Less(h[2 * i + 2], h[2 * i + 1]) then 2 * i + 2 else 2 * i + 1
  }

  lemma HeapPrefix(h: seq<QueueItem>, n: nat)
    requires n <= |h| && HeapOrder(h, n)
    ensures HeapOrder(h[..n], n)
  {
    forall k | 1 <= k < n
      ensures OrderedAt(h[..n], k)
    {
      assert OrderedAt(h, k);
    }
  }

  /** Swapping the last item of a heap into position i leaves down with its invariant on the rest. */
  lemma DownStart(h: seq<QueueItem>, i: nat)
    requires HeapOrder(h, |h|) && i < |h|
    ensures DownInv(Swapped(h, i, |h| - 1), i, i, |h| - 1)
  {
    var n := |h| - 1;
    var g := Swapped(h, i, n);
    forall k | 1 <= k < n && k != i && Parent(k) != i
      ensures OrderedAt(g, k)
    {
      assert OrderedAt(h, k);
    }
    forall k | 1 <= k < n && Parent(k) == i && i > 0
      ensures !Less(g[k], g[Parent(i)])
    {
      assert OrderedAt(h, k) && OrderedAt(h, i);
    }
  }

  /** Once `start[i]` has been swapped to the end and the rest rearranged, dropping the last item
      takes out exactly `start[i]`. */
  lemma TakeLast(start: seq<QueueItem>, g: seq<QueueItem>, i: nat)
    requires i < |start| && Rearranged(Swapped(start, i, |start| - 1), g, |start| - 1)
    ensures g[|start| - 1] == start[i]
    ensures multiset(Tasks(g[..|start| - 1])) == multiset(Tasks(start)) - multiset{start[i].task}
    ensures forall k | 0 <= k < |start| - 1 :: g[k] in start
  {
    var n := |start| - 1;
    var f := Swapped(start, i, n);
    assert g[n] == g[n..][0] && f[n] == f[n..][0];
    SwapKeepsTasks(start, i, n);
    DropLastTask(g, n);
    forall k | 0 <= k < n
      ensures g[k] in start
    {
      var l :| 0 <= l < |f| && f[l] == g[k];
      assert f[l] == start[if l == i then n else if l == n then i else l];
    }
  }

  lemma SwapKeepsTasks(h: seq<QueueItem>, i: nat, j: nat)
    requires i < |h| && j < |h|
    ensures multiset(Tasks(Swapped(h, i, j))) == multiset(Tasks(h))
  {
    assert Tasks(Swapped(h, i, j)) == Swapped(Tasks(h), i, j);
  }

  lemma DropLastTask(g: seq<QueueItem>, n: nat)
    requires |g| == n + 1
    ensures multiset(Tasks(g[..n])) == multiset(Tasks(g)) - multiset{g[n].task}
  {
    assert Tasks(g) == Tasks(g[..n]) + [g[n].task];
  }

  lemma SelfRearranged(h: seq<QueueItem>, n: nat)
    requires n <= |h|
    ensures Rearranged(h, h, n)
  {
  }

  lemma RearrangedTwice(f: seq<QueueItem>, g: seq<QueueItem>, h: seq<QueueItem>, n: nat)
    requires Rearranged(f, g, n) && Rearranged(g, h, n)
    ensures Rearranged(f, h, n)
  {
    forall k | 0 <= k < |h|
      ensures h[k] in f
    {
      var l :| 0 <= l < |g| && g[l] == h[k];
    }
  }

  // ---------- container/heap on sequences ----------

  /** heap.up from position j. */
  function Raised(h: seq<QueueItem>, j: nat): (g: seq<QueueItem>)
    requires j < |h|
    ensures |g| == |h|
    decreases j
  {
    if j == 0 || !Less(h[j], h[Parent(j)]) then h else Raised(Swapped(h, Parent(j), j), Parent(j))
  }

  /** heap.down from position i among the first n, with the position where the item ends. */
  function Lowered(h: seq<QueueItem>, i: nat, n: nat): (r: (seq<QueueItem>, nat))
    requires n <= |h|
    ensures |r.0| == |h| && r.1 >= i
    decreases n - i
  {
    if 2 * i + 1 >= n then (h, i)
    else
      var j := LesserChild(h, i, n);
      if !Less(h[j], h[i]) then (h, i) else Lowered(Swapped(h, i, j), j, n)
  }

  /** heap.Push. */
  function Pushed(h: seq<QueueItem>, item: QueueItem): seq<QueueItem> {
    Raised(h + [item], |h|)
  }

  /** heap.Remove before its final pop: the item at i goes to the end, the rest is repaired. */
  function MovedToEnd(h: seq<QueueItem>, i: nat): (g: seq<QueueItem>)
    requires i < |h|
    ensures |g| == |h|
  {
    var n := |h| - 1;
    if i == n then h else Repaired(Swapped(h, i, n), i, n)
  }

  /** Down from i, and up when down did not move the item. */
  function Repaired(h: seq<QueueItem>, i: nat, n: nat): (g: seq<QueueItem>)
    requires i < n <= |h|
    ensures |g| == |h|
  {
    var (g, k) := Lowered(h, i, n);
    if k > i then g else Raised(g, i)
  }

  lemma {:induction false} RaisedRearranges(h: seq<QueueItem>, j: nat, n: nat)
    requires j < n <= |h|
    ensures Rearranged(h, Raised(h, j), n)
    decreases j
  {
    SelfRearranged(h, n);
    if j > 0 && Less(h[j], h[Parent(j)]) {
      var g := Swapped(h, Parent(j), j);
      SwapRearranges(h, h, Parent(j), j, n);
      RaisedRearranges(g, Parent(j), n);
      RearrangedTwice(h, g, Raised(h, j), n);
    }
  }

  lemma {:induction false} LoweredRearranges(h: seq<QueueItem>, i: nat, n: nat)
    requires i <= n <= |h|
    ensures Rearranged(h, Lowered(h, i, n).0, n)
    decreases n - i
  {
    SelfRearranged(h, n);
    if 2 * i + 1 < n {
      var j := LesserChild(h, i, n);
      if Less(h[j], h[i]) {
        var g := Swapped(h, i, j);
        SwapRearranges(h, h, i, j, n);
        LoweredRearranges(g, j, n);
        RearrangedTwice(h, g, Lowered(h, i, n).0, n);
      }
    }
  }

  lemma MovedToEndRearranges(h: seq<QueueItem>, i: nat)
    requires i < |h|
    ensures Rearranged(Swapped(h, i, |h| - 1), MovedToEnd(h, i), |h| - 1)
  {
    var n := |h| - 1;
    if i == n {
      SelfRearranged(h, n);
      assert Swapped(h, i, n) == h;
    } else {
      var f := Swapped(h, i, n);
      LoweredRearranges(f, i, n);
      var (g, k) := Lowered(f, i, n);
      RaisedRearranges(g, i, n);
      RearrangedTwice(f, g, Raised(g, i), n);
    }
  }

  lemma {:induction false} RaisedIsHeap(h: seq<QueueItem>, j: nat, n: nat)
    requires UpInv(h, j, n)
    ensures HeapOrder(Raised(h, j), n)
    decreases j
  {
    if j > 0 && Less(h[j], h[Parent(j)]) {
      UpStep(h, j, n);
      RaisedIsHeap(Swapped(h, Parent(j), j), Parent(j), n);
    }
  }

  /** What down from i0 leaves when its item ends at k: a heap, except that an item that did not
      move may still be before its parent. */
  ghost predicate DownDone(h: seq<QueueItem>, i0: nat, k: nat, n: nat)
    requires n <= |h|
  {
    (k > i0 || i0 == 0 ==> HeapOrder(h, n)) && (k == i0 < n ==> UpInv(h, i0, n))
  }

  lemma {:induction false} LoweredIsHeap(h: seq<QueueItem>, i0: nat, i: nat, n: nat)
    requires DownInv(h, i0, i, n)
    ensures DownDone(Lowered(h, i, n).0, i0, Lowered(h, i, n).1, n)
    decreases n - i
  {
    if 2 * i + 1 >= n {
      DownStop(h, i0, i, n);
    } else {
      var j := LesserChild(h, i, n);
      BestChild(h, i, j, n);
      if Less(h[j], h[i]) {
        DownStep(h, i0, i, j, n);
        LoweredIsHeap(Swapped(h, i, j), i0, j, n);
      } else {
        DownStop(h, i0, i, n);
      }
    }
  }

  lemma MovedToEndIsHeap(h: seq<QueueItem>, i: nat)
    requires HeapOrder(h, |h|) && i < |h|
    ensures HeapOrder(MovedToEnd(h, i), |h| - 1)
  {
    var n := |h| - 1;
    if i < n {
      DownStart(h, i);
      LoweredIsHeap(Swapped(h, i, n), i, i, n);
      var (g, k) := Lowered(Swapped(h, i, n), i, n);
      if k == i {
        RaisedIsHeap(g, i, n);
      }
    }
  }

  /** Removing position i of a heap leaves a heap without exactly that item. */
  lemma RemovalFacts(h: seq<QueueItem>, i: nat)
    requires HeapOrder(h, |h|) && i < |h|
    ensures var g := MovedToEnd(h, i); var n := |h| - 1;
      && g[n] == h[i]
      && HeapOrder(g[..n], n)
      && multiset(Tasks(g[..n])) == multiset(Tasks(h)) - multiset{h[i].task}
      && forall k | 0 <= k < |h| :: g[k] in h
  {
    MovedToEndIsHeap(h, i);
    MovedToEndRearranges(h, i);
    TakeLast(h, MovedToEnd(h, i), i);
    HeapPrefix(MovedToEnd(h, i), |h| - 1);
  }

  /** heap.Pop is heap.Remove of the root. */
  lemma PopIsRemoveRoot(h: seq<QueueItem>)
    requires h != []
    ensures Lowered(Swapped(h, 0, |h| - 1), 0, |h| - 1).0 == MovedToEnd(h, 0)
  {
    if |h| == 1 {
      assert Swapped(h, 0, 0) == h;
    }
  }

  lemma PushFacts(h: seq<QueueItem>, item: QueueItem)
    requires HeapOrder(h, |h|)
    ensures HeapOrder(Pushed(h, item), |h| + 1)
    ensures multiset(Tasks(Pushed(h, item))) == multiset(Tasks(h)) + multiset{item.task}
    ensures forall k | 0 <= k < |Pushed(h, item)| :: Pushed(h, item)[k] in h + [item]
  {
    var g := h + [item];
    forall k | 1 <= k < |h|
      ensures OrderedAt(g, k)
    {
      assert OrderedAt(h, k);
    }
    RaisedIsHeap(g, |h|, |h| + 1);
    RaisedRearranges(g, |h|, |h| + 1);
    assert Tasks(g) == Tasks(h) + [item.task];
  }

  class PriorityQueue {
    var items: seq<QueueItem>

    /** Every item stands at the position it remembers (so the items are distinct) and carries
        the rank of its task's priority. */
    ghost predicate Shape()
      reads this, items
    {
      && (forall i | 0 <= i < |items| :: items[i].index == i)
      && (forall i | 0 <= i < |items| :: items[i].priority == PriorityToInt(items[i].task.priority))
    }

    ghost predicate Valid()
      reads this, items
    {
      Shape() && HeapOrder(items, |items|)
    }

    /** The tasks in the queue, with multiplicity. */
    ghost function Contents(): multiset<Task>
      reads this
    {
      multiset(Tasks(items))
    }

    constructor ()
      ensures Valid() && Contents() == multiset{}
    {
      items := [];
    }

    /** taskHeap.Swap */
    method Swap(i: nat, j: nat)
      requires Shape() && i < |items| && j < |items|
      modifies this, items
      ensures Shape() && items == Swapped(old(items), i, j)
    {
      items := items[i := items[j]][j := items[i]];
      items[i].index := i;
      items[j].index := j;
      assert forall k | 0 <= k < |items| :: old(items)[k] == items[if k == i then j else if k == j then i else k];
    }

    /** heap.up */
    method Up(j0: nat)
      requires Shape() && j0 < |items|
      modifies this, items
      ensures Shape() && items == Raised(old(items), j0)
      ensures forall k | 0 <= k < |items| :: items[k] in old(items)
    {
      ghost var start := items;
      var j: nat := j0;
      while true
        invariant Shape() && j < |items|
        invariant Raised(items, j) == Raised(start, j0)
        invariant forall k | 0 <= k < |items| :: items[k] in start
        decreases j
      {
        var i := if j == 0 then 0 else (j - 1) / 2;   // Go's (j-1)/2 truncates -1/2 to 0
        if i == j || !Less(items[j], items[i]) {
          break;
        }
        Swap(i, j);
        j := i;
      }
    }

    /** heap.down on the first n positions; says whether the item moved. */
    method Down(i0: nat, n: nat) returns (moved: bool)
      requires Shape() && n <= |items|
      modifies this, items
      ensures Shape() && items == Lowered(old(items), i0, n).0 && moved == (Lowered(old(items), i0, n).1 > i0)
      ensures forall k | 0 <= k < |items| :: items[k] in old(items)
    {
      ghost var start := items;
      var i := i0;
      while true
        invariant Shape() && n <= |items| && i0 <= i
        invariant Lowered(items, i, n) == Lowered(start, i0, n)
        invariant forall k | 0 <= k < |items| :: items[k] in start
        decreases n - i
      {
        var j1 := 2 * i + 1;
        if j1 >= n {
          break;
        }
        var j := LesserChild(items, i, n);
        if !Less(items[j], items[i]) {
          break;
        }
        Swap(i, j);
        i := j;
      }
      moved := i > i0;
    }

    /** taskHeap.Pop: drop the last item. */
    method PopLast() returns (item: QueueItem)
      requires Shape() && items != []
      modifies this, items
      ensures Shape() && items == old(items)[..|old(items)| - 1] && item == old(items)[|old(items)| - 1]
    {
      var n := |items|;
      item := items[n - 1];
      item.index := -1;
      items := items[..n - 1];
    }

    /** Enqueue: taskHeap.Push, then up. */
    method Enqueue(task: Task)
      requires Valid()
      modifies this, items
      ensures Valid() && Contents() == old(Contents()) + multiset{task}
      ensures forall k | 0 <= k < |items| :: items[k] in old(items) || fresh(items[k])
    {
      var item := new QueueItem(task);
      item.index := |items|;
      PushFacts(items, item);
      items := items + [item];
      Up(|items| - 1);
    }

    /** Dequeue: nil on an empty queue, otherwise a task no other task is before. */
    method Dequeue() returns (r: Option<Task>)
      requires Valid()
      modifies this, items
      ensures Valid()
      ensures old(items) == [] ==> r == None && items == []
      ensures old(items) != [] ==>
        && r.Some? && r.value in old(Contents())
        && Contents() == old(Contents()) - multiset{r.value}
        && forall t | t in old(Contents()) :: !Before(t, r.value)
      ensures forall k | 0 <= k < |items| :: items[k] in old(items)
    {
      if |items| == 0 {
        return None;
      }
      RootBeforeAll();
      var item := HeapPop();
      return Some(item.task);
    }

    /** heap.Pop: swap the root with the last item, down, and drop it. */
    method HeapPop() returns (item: QueueItem)
      requires Valid() && items != []
      modifies this, items
      ensures Valid() && item == old(items)[0]
      ensures Contents() == old(Contents()) - multiset{item.task}
      ensures forall k | 0 <= k < |items| :: items[k] in old(items)
    {
      RemovalFacts(items, 0);
      RootToEnd();
      item := PopLast();
    }

    /** heap.Pop before its final pop. */
    method RootToEnd()
      requires Shape() && items != []
      modifies this, items
      ensures Shape() && items == MovedToEnd(old(items), 0)
      ensures forall k | 0 <= k < |items| :: items[k] in old(items)
    {
      PopIsRemoveRoot(items);
      var n := |items| - 1;
      Swap(0, n);
      var moved := Down(0, n);
    }

    lemma RootBeforeAll()
      requires Valid() && items != []
      ensures items[0].task in Contents() && forall t | t in Contents() :: !Before(t, items[0].task)
    {
      assert Tasks(items)[0] == items[0].task;
      forall t | t in Contents()
        ensures !Before(t, items[0].task)
      {
        var k :| 0 <= k < |items| && Tasks(items)[k] == t;
        RootIsFirst(items, k);
      }
    }

    /** Peek: what Dequeue would return, without taking it. */
    method Peek() returns (r: Option<Task>)
      requires Valid()
      ensures items == [] ==> r == None
      ensures items != [] ==> r.Some? && r.value in Contents() && forall t | t in Contents() :: !Before(t, r.value)
    {
      if |items| == 0 {
        return None;
      }
      RootBeforeAll();
      return Some(items[0].task);
    }

    /** heap.Remove before its final pop: swap with the last item, then down, and up when down did
        not move the item. */
    method MoveToEnd(i: nat)
      requires Shape() && i < |items|
      modifies this, items
      ensures Shape() && items == MovedToEnd(old(items), i)
      ensures forall k | 0 <= k < |items| :: items[k] in old(items)
    {
      ghost var start := items;
      var n := |items| - 1;
      if n != i {
        Swap(i, n);
        assert forall k | 0 <= k < |items| :: items[k] in start;
        Repair(i, n);
      }
    }

    method Repair(i: nat, n: nat)
      requires Shape() && i < n <= |items|
      modifies this, items
      ensures Shape() && items == Repaired(old(items), i, n)
      ensures forall k | 0 <= k < |items| :: items[k] in old(items)
    {
      var moved := Down(i, n);
      if !moved {
        Up(i);
      }
    }

    /** heap.Remove. */
    method RemoveAt(i: nat) returns (item: QueueItem)
      requires Valid() && i < |items|
      modifies this, items
      ensures Valid() && item == old(items)[i]
      ensures Contents() == old(Contents()) - multiset{item.task}
      ensures forall k | 0 <= k < |items| :: items[k] in old(items)
    {
      RemovalFacts(items, i);
      MoveToEnd(i);
      item := PopLast();
    }

    /** Remove: takes out one task with the given ID if there is one, and nothing else. */
    method Remove(taskId: string) returns (found: bool)
      requires Valid()
      modifies this, items
      ensures Valid()
      ensures found <==> exists t :: t in old(Contents()) && t.id == taskId
      ensures found ==> exists t ::
        t in old(Contents()) && t.id == taskId && Contents() == old(Contents()) - multiset{t}
      ensures !found ==> items == old(items) && Contents() == old(Contents())
      ensures forall k | 0 <= k < |items| :: items[k] in old(items)
    {
      for i := 0 to |items|
        invariant items == old(items) && Valid()
        invariant forall k | 0 <= k < i :: Tasks(items)[k].id != taskId
      {
        if items[i].task.id == taskId {
          assert Tasks(items)[i] == items[i].task;
          var item := RemoveAt(i);
          assert item.task in old(Contents());
          return true;
        }
      }
      return false;
    }
  }

  // ---------- draining the queue is the ORDER BY of GetQueuedTasks ----------

  /** `out` is what repeated Dequeue calls may return on a queue holding `bag` until it holds `rest`:
      each time a task still in the queue that no remaining task is before. */
  ghost predicate DrainsTo(out: seq<Task>, bag: multiset<Task>, rest: multiset<Task>)
    decreases |out|
  {
    if out == [] then bag == rest
    else
      var front, last := out[..|out| - 1], out[|out| - 1];
      DrainsTo(front, bag, rest + multiset{last}) && forall t | t in rest :: !Before(t, last)
  }

  ghost predicate IsDrain(out: seq<Task>, bag: multiset<Task>) {
    DrainsTo(out, bag, multiset{})
  }

  lemma DrainOneMore(out: seq<Task>, bag: multiset<Task>, rest: multiset<Task>, t: Task)
    requires DrainsTo(out, bag, rest) && t in rest && forall u | u in rest :: !Before(u, t)
    ensures DrainsTo(out + [t], bag, rest - multiset{t})
  {
    assert (out + [t])[..|out|] == out;
    assert rest - multiset{t} + multiset{t} == rest;
  }

  /** Critical before high before normal before low, and a task of any other priority counts as normal; among
      equals the older one comes first. The queue and the query agree on this. */
  lemma PriorityOrder(a: Task, b: Task)
    ensures a.priority == "critical" && b.priority in ["high", "normal", "low"] ==> Before(a, b) && !OrderLeq(b, a)
    ensures a.priority == "high" && b.priority in ["normal", "low"] ==> Before(a, b) && !OrderLeq(b, a)
    ensures a.priority == "normal" && b.priority == "low" ==> Before(a, b) && !OrderLeq(b, a)
    ensures a.priority == b.priority ==> (Before(a, b) <==> a.createdAt < b.createdAt)
    ensures a.priority == b.priority ==> (OrderLeq(a, b) <==> a.createdAt <= b.createdAt)
    ensures !LegalPriority(a.priority) ==>
      (Before(a, b) <==> Before(a.(priority := "normal"), b)) && (Before(b, a) <==> Before(b, a.(priority := "normal")))
  {
  }

  type Key = (int, int)

  function KeyOf(t: Task): Key {
    (PriorityToInt(t.priority), t.createdAt)
  }

  function Keys(s: seq<Task>): (k: seq<Key>)
    ensures |k| == |s|
  {
    seq(|s|, i requires 0 <= i < |s| => KeyOf(s[i]))
  }

  predicate KeyLeq(a: Key, b: Key) {
    a.0 > b.0 || (a.0 == b.0 && a.1 <= b.1)
  }

  ghost predicate SortedKeys(k: seq<Key>) {
    forall i, j | 0 <= i < j < |k| :: KeyLeq(k[i], k[j])
  }

  lemma {:induction false} DrainIsSortedPermutation(out: seq<Task>, bag: multiset<Task>, rest: multiset<Task>)
    requires DrainsTo(out, bag, rest)
    ensures multiset(out) + rest == bag && SortedKeys(Keys(out))
    ensures forall s, t | s in out && t in rest :: KeyLeq(KeyOf(s), KeyOf(t))
  {
    if out != [] {
      var front, last := out[..|out| - 1], out[|out| - 1];
      DrainIsSortedPermutation(front, bag, rest + multiset{last});
      assert out == front + [last];
      SortedSnoc(front, last);
    }
  }

  lemma SortedSnoc(front: seq<Task>, last: Task)
    requires SortedKeys(Keys(front)) && forall t | t in front :: KeyLeq(KeyOf(t), KeyOf(last))
    ensures SortedKeys(Keys(front + [last]))
  {
    var s := front + [last];
    forall i, j | 0 <= i < j < |s|
      ensures KeyLeq(Keys(s)[i], Keys(s)[j])
    {
      if j < |front| {
        assert KeyLeq(Keys(front)[i], Keys(front)[j]);
      } else {
        assert s[i] == front[i];
      }
    }
  }

  function Without<T>(s: seq<T>, j: nat): seq<T>
    requires j < |s|
  {
    s[..j] + s[j + 1..]
  }

  lemma WithoutBag<T>(s: seq<T>, j: nat)
    requires j < |s|
    ensures multiset(Without(s, j)) == multiset(s) - multiset{s[j]}
  {
    assert s == s[..j] + [s[j]] + s[j + 1..];
  }

  lemma KeysWithout(s: seq<Task>, j: nat)
    requires j < |s|
    ensures multiset(Keys(Without(s, j))) == multiset(Keys(s)) - multiset{KeyOf(s[j])}
    ensures KeyOf(s[j]) in multiset(Keys(s))
  {
    assert Keys(Without(s, j)) == Without(Keys(s), j);
    WithoutBag(Keys(s), j);
    assert Keys(s)[j] == KeyOf(s[j]);
  }

  lemma PutBack<T>(a: multiset<T>, b: multiset<T>, x: T)
    requires x in a && x in b && a - multiset{x} == b - multiset{x}
    ensures a == b
  {
    assert a == a - multiset{x} + multiset{x};
    assert b == b - multiset{x} + multiset{x};
  }

  lemma {:induction false} KeysOfPermutation(a: seq<Task>, b: seq<Task>)
    requires multiset(a) == multiset(b)
    ensures multiset(Keys(a)) == multiset(Keys(b))
    decreases |a|
  {
    if a == [] {
      assert |multiset(b)| == |b|;
    } else {
      assert a[0] in multiset(b);
      var j :| 0 <= j < |b| && b[j] == a[0];
      WithoutBag(a, 0);
      WithoutBag(b, j);
      KeysOfPermutation(Without(a, 0), Without(b, j));
      KeysWithout(a, 0);
      KeysWithout(b, j);
      PutBack(multiset(Keys(a)), multiset(Keys(b)), KeyOf(a[0]));
    }
  }

  lemma {:induction false} SortedKeysUnique(a: seq<Key>, b: seq<Key>)
    requires multiset(a) == multiset(b) && SortedKeys(a) && SortedKeys(b)
    ensures a == b
    decreases |a|
  {
    if a == [] || b == [] {
      assert |multiset(a)| == |a| && |multiset(b)| == |b|;
    } else {
      HeadIsLeast(a, b);
      HeadIsLeast(b, a);
      assert a == [a[0]] + a[1..] && b == [b[0]] + b[1..];
      assert multiset(a[1..]) == multiset(a) - multiset{a[0]};
      assert multiset(b[1..]) == multiset(b) - multiset{b[0]};
      SortedKeysUnique(a[1..], b[1..]);
    }
  }

  lemma HeadIsLeast(a: seq<Key>, b: seq<Key>)
    requires a != [] && b != [] && SortedKeys(a) && multiset(a) == multiset(b)
    ensures KeyLeq(a[0], b[0])
  {
    assert b[0] in multiset(a);
    var j :| 0 <= j < |a| && a[j] == b[0];
  }

  /** The tasks have priorities the table admits. */
  predicate AllLegal(rows: seq<Task>) {
    forall t | t in rows :: LegalPriority(t.priority)
  }

  /** Draining the queue yields the rows of GetQueuedTasks in an order with the same sequence of
      (priority, creation time). */
  lemma DrainFollowsOrderBy(out: seq<Task>, rows: seq<Task>)
    requires IsDrain(out, multiset(rows)) && IsOrderBy(rows)
    requires AllLegal(rows)
    ensures multiset(out) == multiset(rows) && Keys(out) == Keys(rows)
  {
    DrainIsSortedPermutation(out, multiset(rows), multiset{});
    KeysOfPermutation(out, rows);
    forall i, j | 0 <= i < j < |rows|
      ensures KeyLeq(Keys(rows)[i], Keys(rows)[j])
    {
      assert rows[i] in rows && rows[j] in rows;
    }
    SortedKeysUnique(Keys(out), Keys(rows));
  }

  /** Dequeue until the queue is empty: every task once, in an order whose keys are those of the
      ORDER BY listing of the same tasks. */
  method Drain(q: PriorityQueue) returns (out: seq<Task>)
    requires q.Valid()
    modifies q, q.items
    ensures q.items == [] && IsDrain(out, old(q.Contents())) && multiset(out) == old(q.Contents())
    ensures forall rows | multiset(rows) == old(q.Contents()) && IsOrderBy(rows) && AllLegal(rows) ::
      Keys(out) == Keys(rows)
  {
    ghost var bag := q.Contents();
    out := [];
    while |q.items| > 0
      invariant q.Valid() && DrainsTo(out, bag, q.Contents())
      invariant forall k | 0 <= k < |q.items| :: q.items[k] in old(q.items)
      decreases |q.Contents()|
    {
      ghost var before := q.Contents();
      var r := q.Dequeue();
      DrainOneMore(out, bag, before, r.value);
      out := out + [r.value];
    }
    DrainIsSortedPermutation(out, bag, multiset{});
    forall rows | multiset(rows) == bag && IsOrderBy(rows) && AllLegal(rows)
      ensures Keys(out) == Keys(rows)
    {
      DrainFollowsOrderBy(out, rows);
    }
  }
}
