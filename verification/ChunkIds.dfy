/** Chunk IDs and file names: how they are printed, recognised and parsed back. */
module ChunkIds {
  import opened Records
  import opened Text

  /** The prefixes the splitter prints (controller/splitter/splitter.go:137, 239, 270, 309). */
  predicate LegalPrefix(p: string) {
    p == "chunk" || p == "map" || p == "pipe" || p == "replica"
  }

  /** fmt.Sprintf("<prefix>-%s-%d", parent, index). */
  function ChunkId(prefix: string, parent: string, index: nat): string {
    prefix + ['-'] + (parent + ['-'] + Decimal(index))
  }

  /** An ID as CreateTask prints it: "task-" and a part without dashes. */
  predicate IsTaskId(id: string) {
    |id| >= 5 && id[..5] == "task-" && '-' !in id[5..]
  }

  /** The test of controller/api/tasks.go:454. None is the run-time panic of slicing an ID
      shorter than seven bytes, which only the first operand guards against. */
  function IsChunkId(id: string): Option<bool> {
    if |id| > 6 && id[..6] == "chunk-" then Some(true)
    else if |id| < 7 then None
    else Some(id[..7] == "replica" || id[..4] == "map-" || id[..5] == "pipe-")
  }

  /** The parent ID as lines 469-472 cut it out of a chunk ID. */
  function ParentOf(id: string): Option<string> {
    var parts := SplitOn(id, '-');
    if |parts| >= 4 && parts[1] == "task" then Some(parts[1] + "-" + parts[2]) else None
  }

  /** What is taken for a chunk, of any ID: exactly what starts with one of the four prefixes, "chunk-" with
      something after it; an ID under seven bytes panics. */
  lemma ClassifiedExactly(id: string)
    ensures IsChunkId(id) == None <==> |id| < 7
    ensures IsChunkId(id) == Some(true) <==>
      |id| >= 7 && ("chunk-" <= id || "replica" <= id || "map-" <= id || "pipe-" <= id)
  {
  }

  /** Every chunk ID of a task is recognised and parsed back to that task. */
  lemma RoundTrip(prefix: string, parent: string, index: nat)
    requires LegalPrefix(prefix) && IsTaskId(parent)
    ensures IsChunkId(ChunkId(prefix, parent, index)) == Some(true)
    ensures ParentOf(ChunkId(prefix, parent, index)) == Some(parent)
  {
    ParsedParent(prefix, parent, index);
    Recognised(prefix, parent, index);
  }

  lemma ParsedParent(prefix: string, parent: string, index: nat)
    requires '-' !in prefix && IsTaskId(parent)
    ensures ParentOf(ChunkId(prefix, parent, index)) == Some(parent)
  {
    var pieces := [prefix, "task", parent[5..], Decimal(index)];
    IdIsJoin(prefix, parent, index);
    SplitOfJoin(pieces, '-');
    assert "task" + "-" + parent[5..] == parent;
  }

  /** The ID of a task's chunk is four pieces joined with dashes. */
  lemma IdIsJoin(prefix: string, parent: string, index: nat)
    requires IsTaskId(parent)
    ensures ChunkId(prefix, parent, index) == JoinWith([prefix, "task", parent[5..], Decimal(index)], '-')
  {
    var h, d := parent[5..], Decimal(index);
    JoinFour(prefix, "task", h, d);
    TaskPart(parent, d);
  }

  lemma JoinFour(a: string, b: string, h: string, d: string)
    ensures JoinWith([a, b, h, d], '-') == a + ['-'] + (b + ['-'] + (h + ['-'] + d))
  {
    assert [a, b, h, d][1..] == [b, h, d] && [b, h, d][1..] == [h, d] && [h, d][1..] == [d];
    assert JoinWith([h, d], '-') == h + ['-'] + d;
    assert JoinWith([b, h, d], '-') == b + ['-'] + (h + ['-'] + d);
  }

  lemma TaskPart(parent: string, d: string)
    requires IsTaskId(parent)
    ensures parent + ['-'] + d == "task" + ['-'] + (parent[5..] + ['-'] + d)
  {
    assert parent == "task" + ['-'] + parent[5..];
  }

  lemma Recognised(prefix: string, parent: string, index: nat)
    requires LegalPrefix(prefix) && IsTaskId(parent)
    ensures IsChunkId(ChunkId(prefix, parent, index)) == Some(true)
  {
    var id := ChunkId(prefix, parent, index);
    var p := prefix + ['-'];
    assert id[..|p|] == p;
    assert id[..|prefix|] == prefix;
  }

  /** Task IDs are exactly the parents the parser can recover, whatever the parent string is. */
  lemma ParsedExactlyForTaskIds(prefix: string, parent: string, index: nat)
    requires LegalPrefix(prefix)
    ensures ParentOf(ChunkId(prefix, parent, index)) == Some(parent) <==> IsTaskId(parent)
  {
    var id := ChunkId(prefix, parent, index);
    if IsTaskId(parent) {
      RoundTrip(prefix, parent, index);
    }
    if ParentOf(id) == Some(parent) {
      var parts := SplitOn(id, '-');
      SplitRejoins(id, '-');
      assert parent == "task" + "-" + parts[2];
      assert parent[5..] == parts[2];
    }
  }

  /** A task ID of at least seven bytes is not taken for a chunk; a shorter one panics. */
  lemma TaskIdNotChunk(id: string)
    requires IsTaskId(id)
    ensures IsChunkId(id) == if |id| < 7 then None else Some(false)
  {
    assert id[0] == 't';
    if |id| >= 7 {
      assert id[..6][0] == 't' && id[..7][0] == 't' && id[..4][0] == 't' && id[..5][0] == 't';
    }
  }

  /** Distinct (prefix, parent, index) have distinct IDs, for every parent string. */
  lemma ChunkIdInjective(p1: string, t1: string, i1: nat, p2: string, t2: string, i2: nat)
    requires LegalPrefix(p1) && LegalPrefix(p2)
    requires ChunkId(p1, t1, i1) == ChunkId(p2, t2, i2)
    ensures p1 == p2 && t1 == t2 && i1 == i2
  {
    var id := ChunkId(p1, t1, i1);
    var b1, b2 := t1 + ['-'] + Decimal(i1), t2 + ['-'] + Decimal(i2);
    IndexAfterPrefix(p1, '-', b1);
    IndexAfterPrefix(p2, '-', b2);
    assert p1 == id[..|p1|] && p2 == id[..|p2|];
    assert b1 == id[|p1| + 1..] && b2 == id[|p2| + 1..];
    LastDash(t1, Decimal(i1), t2, Decimal(i2));
    DecimalInjective(i1, i2);
  }

  lemma LastDash(a: string, d: string, b: string, e: string)
    requires '-' !in d && '-' !in e
    requires a + ['-'] + d == b + ['-'] + e
    ensures a == b && d == e
  {
    var s := a + ['-'] + d;
    var k := if |a| <= |b| then |b| else |a|;
    assert s[|a|] == '-' && s[|b|] == '-';
    assert s[k..][0] == '-';
    assert s[|a| + 1..] == d && s[|b| + 1..] == e;
    assert forall i | |a| < i < |s| :: s[i] == d[i - |a| - 1];
    assert forall i | |b| < i < |s| :: s[i] == e[i - |b| - 1];
    assert a == s[..|a|] && b == s[..|b|];
  }

  // ---------- file names ----------

  /** filepath.Join on parts that are already clean. */
  function Under(dir: string, name: string): string {
    dir + "/" + name
  }

  function ChunkFile(inputDir: string, i: nat): string {
    Under(inputDir, "chunk_" + Pad4(i) + ".dat")
  }

  function ResultFile(outputDir: string, i: nat): string {
    Under(outputDir, "result_" + Pad4(i) + ".dat")
  }

  function StageFile(pipelineDir: string, i: nat): string {
    Under(pipelineDir, "stage_" + Decimal(i) + "_out.dat")
  }

  function ReplicaFile(outputDir: string, i: nat): string {
    Under(outputDir, "replica_" + Decimal(i) + ".dat")
  }

  lemma NameDetermined(dir: string, a: string, x: string, y: string, b: string)
    requires Under(dir, a + x + b) == Under(dir, a + y + b)
    ensures x == y
  {
    var n, m := a + x + b, a + y + b;
    assert n == Under(dir, n)[|dir| + 1..] && m == Under(dir, m)[|dir| + 1..];
    assert |x| == |y|;
    assert x == n[|a|..|a| + |x|] && y == m[|a|..|a| + |y|];
  }

  /** No chunk or result file overwrites another one. */
  lemma PaddedNamesInjective(dir: string, i: nat, j: nat)
    ensures ChunkFile(dir, i) == ChunkFile(dir, j) ==> i == j
    ensures ResultFile(dir, i) == ResultFile(dir, j) ==> i == j
  {
    if ChunkFile(dir, i) == ChunkFile(dir, j) {
      NameDetermined(dir, "chunk_", Pad4(i), Pad4(j), ".dat");
      Pad4Injective(i, j);
    }
    if ResultFile(dir, i) == ResultFile(dir, j) {
      NameDetermined(dir, "result_", Pad4(i), Pad4(j), ".dat");
      Pad4Injective(i, j);
    }
  }

  /** Nor does a stage or a replica output. */
  lemma PlainNamesInjective(dir: string, i: nat, j: nat)
    ensures StageFile(dir, i) == StageFile(dir, j) ==> i == j
    ensures ReplicaFile(dir, i) == ReplicaFile(dir, j) ==> i == j
  {
    if StageFile(dir, i) == StageFile(dir, j) {
      NameDetermined(dir, "stage_", Decimal(i), Decimal(j), "_out.dat");
      DecimalInjective(i, j);
    }
    if ReplicaFile(dir, i) == ReplicaFile(dir, j) {
      NameDetermined(dir, "replica_", Decimal(i), Decimal(j), ".dat");
      DecimalInjective(i, j);
    }
  }
}
