/** Cutting the input file into chunk files, by lines and by size
    (controller/splitter/splitter.go:73-225). Files are byte sequences. */
module FileSplitting {
  import opened Text
  import opened Slices

  type Byte = b: int | 0 <= b < 256
  type Bytes = seq<Byte>

  const NL: Byte := 10
  const CR: Byte := 13

  /** The scanner's buffer; a line that does not fit with its newline stops the scan. */
  const MAX_TOKEN := 1048576

  // ---------- bufio.ScanLines ----------

  /** The lines of a file before carriage returns are dropped: the pieces between newlines,
      without the empty piece after a final newline. */
  function RawLines(data: Bytes): seq<Bytes> {
    var pieces := SplitOn(data, NL);
    if pieces[|pieces| - 1] == [] then pieces[..|pieces| - 1] else pieces
  }

  function DropCR(line: Bytes): Bytes {
    if line != [] && line[|line| - 1] == CR then line[..|line| - 1] else line
  }

  /** The tokens the scanner yields. */
  function Lines(data: Bytes): (lines: seq<Bytes>)
    ensures |lines| == |RawLines(data)|
  {
    seq(|RawLines(data)|, i requires 0 <= i < |RawLines(data)| => DropCR(RawLines(data)[i]))
  }

  /** scanner.Err() reports bufio.ErrTooLong. */
  predicate HasLongLine(data: Bytes) {
    exists line | line in RawLines(data) :: |line| >= MAX_TOKEN
  }

  /** The lines of a file, whatever the scanner does: no line holds a newline, and the file is these lines,
      each ended by one, where the last newline may be missing. */
  ghost predicate HasLines(data: Bytes, lines: seq<Bytes>) {
    && (forall line | line in lines :: NL !in line)
    && (data == Terminated(lines) ||
        (data != [] && data[|data| - 1] != NL && data + [NL] == Terminated(lines)))
  }

  /** `tokens` are the lines with one carriage return dropped from the end where there is one. */
  ghost predicate WithoutCR(lines: seq<Bytes>, tokens: seq<Bytes>) {
    && |tokens| == |lines|
    && forall i | 0 <= i < |lines| ::
         lines[i] == tokens[i] + [CR] ||
         (lines[i] == tokens[i] && (lines[i] == [] || lines[i][|lines[i]| - 1] != CR))
  }

  /** File j holds tokens j*size up to (j+1)*size, each ended by a newline, and there are just enough files. */
  ghost predicate FilesOf(tokens: seq<Bytes>, size: nat, files: seq<Bytes>)
    requires size > 0
  {
    && |tokens| <= |files| * size && (files == [] || (|files| - 1) * size < |tokens|)
    && forall j | 0 <= j < |files| ::
         0 <= j * size <= |tokens| &&
         files[j] == Terminated(tokens[j * size..if (j + 1) * size < |tokens| then (j + 1) * size else |tokens|])
  }

  /** File i holds bytes i*size up to (i+1)*size, and there are just enough files. */
  ghost predicate SlicesOf(data: Bytes, size: nat, files: seq<Bytes>)
    requires size > 0
  {
    && |data| <= |files| * size && (files == [] || (|files| - 1) * size < |data|)
    && forall i | 0 <= i < |files| ::
         0 <= i * size <= |data| &&
         files[i] == data[i * size..if (i + 1) * size < |data| then (i + 1) * size else |data|]
  }

  /** Lines written one after the other, each followed by a newline. */
  function Terminated(lines: seq<Bytes>): Bytes {
    if lines == [] then [] else Terminated(lines[..|lines| - 1]) + lines[|lines| - 1] + [NL]
  }

  // ---------- splitting by lines ----------

  datatype LineSplit = TooLong | Empty | LineFiles(files: seq<Bytes>)

  /** The two passes of splitByLines over the scanner's tokens: count, then write. */
  method SplitByLines(data: Bytes, linesPerChunk: nat) returns (r: LineSplit)
    requires linesPerChunk > 0
    ensures r == TooLong <==> HasLongLine(data)
    ensures r == Empty <==> !HasLongLine(data) && Lines(data) == []
    ensures r.LineFiles? ==> FilesWritten(Lines(data), linesPerChunk, |Lines(data)|, r.files)
    ensures forall lines | HasLines(data, lines) :: r == TooLong <==> exists line | line in lines :: |line| >= 1048576
    ensures forall lines | HasLines(data, lines) :: r == Empty <==> lines == []
    ensures forall lines, tokens | r.LineFiles? && HasLines(data, lines) && WithoutCR(lines, tokens) ::
      FilesOf(tokens, linesPerChunk, r.files)
  {
    forall lines | HasLines(data, lines)
      ensures RawLines(data) == lines
    {
      RawLinesAre(data, lines);
    }
    if HasLongLine(data) {
      return TooLong;
    }
    var lines := Lines(data);
    var totalLines := 0;
    for i := 0 to |lines|
      invariant totalLines == i
    {
      totalLines := totalLines + 1;
    }
    if totalLines == 0 {
      return Empty;
    }
    var files := WriteChunks(lines, linesPerChunk);
    forall raw, tokens | HasLines(data, raw) && WithoutCR(raw, tokens)
      ensures FilesOf(tokens, linesPerChunk, files)
    {
      TokensAre(data, raw, tokens);
      WrittenFilesAre(tokens, linesPerChunk, files);
    }
    return LineFiles(files);
  }

  /** The second pass: write each line to the current file, opening the next one whenever the line
      number is a multiple of the chunk size. */
  method WriteChunks(lines: seq<Bytes>, linesPerChunk: nat) returns (files: seq<Bytes>)
    requires linesPerChunk > 0
    ensures FilesWritten(lines, linesPerChunk, |lines|, files)
  {
    files := [];
    var lineNum := 0;
    PartCountBounds(0, linesPerChunk);
    while lineNum < |lines|
      invariant lineNum <= |lines|
      invariant FilesWritten(lines, linesPerChunk, lineNum, files)
    {
      var line := lines[lineNum];
      FilesStep(lines, linesPerChunk, lineNum, files);
      if lineNum % linesPerChunk == 0 {
        files := files + [[]];
      }
      files := files[|files| - 1 := files[|files| - 1] + line + [NL]];
      lineNum := lineNum + 1;
    }
  }

  /** The files after the first k lines: chunk file j holds exactly the lines of part j. */
  ghost predicate FilesWritten(lines: seq<Bytes>, size: nat, k: nat, files: seq<Bytes>)
    requires size > 0 && k <= |lines|
  {
    && |files| == PartCount(k, size)
    && forall j | 0 <= j < |files| :: files[j] == Terminated(Part(lines, j, size, k))
  }

  lemma FilesStep(lines: seq<Bytes>, size: nat, k: nat, files: seq<Bytes>)
    requires size > 0 && k < |lines| && FilesWritten(lines, size, k, files)
    ensures var open := if k % size == 0 then files + [[]] else files;
      open != [] && FilesWritten(lines, size, k + 1, open[|open| - 1 := open[|open| - 1] + lines[k] + [NL]])
  {
    PartCountStep(k, size);
    var open := if k % size == 0 then files + [[]] else files;
    var c := |open| - 1;
    LastPartOpen(k, size, c);
    forall j | 0 <= j < c
      ensures Part(lines, j, size, k + 1) == Part(lines, j, size, k)
    {
      MulMono(j + 1, c, size);
    }
    LastPartGrows(lines, c, size, k);
  }

  /** Element k belongs to the last part among the first k + 1. */
  lemma LastPartOpen(k: nat, size: nat, c: int)
    requires size > 0 && c == PartCount(k + 1, size) - 1
    ensures 0 <= c && c * size <= k < (c + 1) * size
    ensures k % size == 0 ==> c * size == k
  {
    PartCountBounds(k + 1, size);
    PartCountStep(k, size);
  }

  lemma LastPartGrows(lines: seq<Bytes>, c: nat, size: nat, k: nat)
    requires k < |lines| && c * size <= k < (c + 1) * size
    ensures Terminated(Part(lines, c, size, k + 1)) == Terminated(Part(lines, c, size, k)) + lines[k] + [NL]
  {
    var before, after := Part(lines, c, size, k), Part(lines, c, size, k + 1);
    assert after == before + [lines[k]];
    assert after[..|after| - 1] == before;
  }

  // ---------- nothing is lost ----------

  lemma {:induction false} TerminatedConcat(a: seq<Bytes>, b: seq<Bytes>)
    ensures Terminated(a + b) == Terminated(a) + Terminated(b)
    decreases |b|
  {
    if b == [] {
      assert a + b == a;
    } else {
      var n := |b| - 1;
      assert (a + b)[..|a + b| - 1] == a + b[..n];
      TerminatedConcat(a, b[..n]);
    }
  }

  /** The chunk files, one after the other, hold every line in order. */
  lemma {:induction false} ChunkFilesHoldAllLines(lines: seq<Bytes>, size: nat, c: nat, files: seq<Bytes>)
    requires size > 0 && |files| == c
    requires forall j | 0 <= j < c :: files[j] == Terminated(Part(lines, j, size, |lines|))
    ensures 0 <= Min(c * size, |lines|) <= |lines| && Flatten(files) == Terminated(lines[..Min(c * size, |lines|)])
  {
    if c > 0 {
      ChunkFilesHoldAllLines(lines, size, c - 1, files[..c - 1]);
      MulMono(c - 1, c, size);
      TerminatedRange(lines, Min((c - 1) * size, |lines|), Min(c * size, |lines|));
    }
  }

  lemma TerminatedRange(lines: seq<Bytes>, lo: nat, hi: nat)
    requires lo <= hi <= |lines|
    ensures Terminated(lines[..hi]) == Terminated(lines[..lo]) + Terminated(lines[lo..hi])
  {
    TerminatedConcat(lines[..lo], lines[lo..hi]);
    assert lines[..hi] == lines[..lo] + lines[lo..hi];
  }

  /** Joining pieces with newlines is terminating all but the last one. */
  lemma {:induction false} JoinIsTerminated(pieces: seq<Bytes>)
    requires pieces != []
    ensures JoinWith(pieces, NL) == Terminated(pieces[..|pieces| - 1]) + pieces[|pieces| - 1]
  {
    var n := |pieces| - 1;
    if n > 0 {
      JoinIsTerminated(pieces[1..]);
      assert pieces[1..][..n - 1] == pieces[1..n];
      TerminatedConcat([pieces[0]], pieces[1..n]);
      assert [pieces[0]] + pieces[1..n] == pieces[..n];
      assert Terminated([pieces[0]]) == pieces[0] + [NL];
    }
  }

  /** The file with a final newline added if it lacks one. */
  function WithFinalNewline(data: Bytes): Bytes {
    if data == [] || data[|data| - 1] == NL then data else data + [NL]
  }

  /** The last piece of a file is what follows its last newline. */
  lemma PiecesOf(data: Bytes, pieces: seq<Bytes>)
    requires pieces == SplitOn(data, NL)
    ensures data == Terminated(pieces[..|pieces| - 1]) + pieces[|pieces| - 1] && NL !in pieces[|pieces| - 1]
  {
    SplitRejoins(data, NL);
    JoinIsTerminated(pieces);
  }

  lemma RawLinesLoseNothing(data: Bytes)
    ensures Terminated(RawLines(data)) == WithFinalNewline(data)
  {
    var pieces := SplitOn(data, NL);
    var front, last := pieces[..|pieces| - 1], pieces[|pieces| - 1];
    PiecesOf(data, pieces);
    LastPiece(data, front, last);
    assert pieces == front + [last];
  }

  lemma LastPiece(data: Bytes, front: seq<Bytes>, last: Bytes)
    requires data == Terminated(front) + last && NL !in last
    ensures last == [] ==> WithFinalNewline(data) == Terminated(front)
    ensures last != [] ==> WithFinalNewline(data) == Terminated(front + [last])
  {
    if last == [] {
      TerminatedEndsInNewline(front);
    } else {
      assert data[|data| - 1] == last[|last| - 1];
      assert (front + [last])[..|front|] == front;
    }
  }

  lemma TerminatedEndsInNewline(lines: seq<Bytes>)
    ensures lines != [] ==> Terminated(lines) != [] && Terminated(lines)[|Terminated(lines)| - 1] == NL
  {
  }

  /** Dropping carriage returns keeps the text exactly when there is none to drop. */
  lemma {:induction false} DroppingCRs(raw: seq<Bytes>, lines: seq<Bytes>)
    requires |raw| == |lines| && forall i | 0 <= i < |raw| :: lines[i] == DropCR(raw[i])
    ensures |Terminated(lines)| <= |Terminated(raw)|
    ensures Terminated(lines) == Terminated(raw) <==> lines == raw
  {
    if raw != [] {
      var n := |raw| - 1;
      DroppingCRs(raw[..n], lines[..n]);
      if Terminated(lines) == Terminated(raw) {
        assert |Terminated(lines[..n])| + |lines[n]| == |Terminated(raw[..n])| + |raw[n]|;
        assert lines[n] == raw[n];
        var k := |Terminated(raw[..n])|;
        assert Terminated(raw)[..k] == Terminated(raw[..n]);
        assert Terminated(lines)[..k] == Terminated(lines[..n]);
        assert lines == lines[..n] + [lines[n]] && raw == raw[..n] + [raw[n]];
      }
    }
  }

  /** splitByLines loses nothing but carriage returns before newlines: the chunk files concatenated
      are the input with a final newline, byte for byte, if and only if no line ends in '\r'. */
  lemma LineFilesLossless(data: Bytes, linesPerChunk: nat, files: seq<Bytes>)
    requires linesPerChunk > 0 && FilesWritten(Lines(data), linesPerChunk, |Lines(data)|, files)
    ensures Flatten(files) == Terminated(Lines(data))
    ensures Flatten(files) == WithFinalNewline(data) <==>
      forall line | line in RawLines(data) :: line == [] || line[|line| - 1] != CR
  {
    var lines, raw := Lines(data), RawLines(data);
    ChunkFilesHoldAllLines(lines, linesPerChunk, |files|, files);
    PartCountBounds(|lines|, linesPerChunk);
    assert lines[..|lines|] == lines;
    RawLinesLoseNothing(data);
    DroppingCRs(raw, lines);
    if forall line | line in raw :: line == [] || line[|line| - 1] != CR {
      assert lines == raw;
    }
    if lines == raw {
      forall line | line in raw
        ensures line == [] || line[|line| - 1] != CR
      {
        var i :| 0 <= i < |raw| && raw[i] == line;
        assert lines[i] == DropCR(raw[i]);
      }
    }
  }

  /** In particular nothing is lost of input without '\r'. */
  lemma NoCRMeansLossless(data: Bytes, linesPerChunk: nat, files: seq<Bytes>)
    requires CR !in data
    requires linesPerChunk > 0 && FilesWritten(Lines(data), linesPerChunk, |Lines(data)|, files)
    ensures Flatten(files) == WithFinalNewline(data)
  {
    RawLinesLoseNothing(data);
    forall line | line in RawLines(data)
      ensures CR !in line
    {
      var i :| 0 <= i < |RawLines(data)| && RawLines(data)[i] == line;
      BytesOfLine(RawLines(data), i);
    }
    LineFilesLossless(data, linesPerChunk, files);
  }

  lemma {:induction false} BytesOfLine(lines: seq<Bytes>, i: nat)
    requires i < |lines|
    ensures forall b | b in lines[i] :: b in Terminated(lines)
  {
    var n := |lines| - 1;
    if i < n {
      BytesOfLine(lines[..n], i);
    }
  }

  // ---------- the lines are the lines of the file ----------

  /** Text put together from newline-free pieces is taken apart into them. */
  lemma PiecesOfText(front: seq<Bytes>, last: Bytes)
    requires (forall line | line in front :: NL !in line) && NL !in last
    ensures SplitOn(Terminated(front) + last, NL) == front + [last]
  {
    var pieces := front + [last];
    JoinIsTerminated(pieces);
    assert pieces[..|pieces| - 1] == front;
    SplitOfJoin(pieces, NL);
  }

  /** The lines of a file are determined, and they are what the scanner sees. */
  lemma RawLinesAre(data: Bytes, lines: seq<Bytes>)
    requires HasLines(data, lines)
    ensures RawLines(data) == lines
  {
    if data == Terminated(lines) {
      PiecesOfText(lines, []);
      assert Terminated(lines) + [] == data;
      assert (lines + [[]])[..|lines|] == lines;
    } else {
      var n := |lines| - 1;
      var front, last := lines[..n], lines[n];
      assert data == (data + [NL])[..|data|] && Terminated(lines)[..|data|] == Terminated(front) + last;
      LastLineNotEmpty(data, front, last);
      PiecesOfText(front, last);
      assert front + [last] == lines;
    }
  }

  lemma LastLineNotEmpty(data: Bytes, front: seq<Bytes>, last: Bytes)
    requires data == Terminated(front) + last && data != [] && data[|data| - 1] != NL
    ensures last != []
  {
    TerminatedEndsInNewline(front);
  }

  /** Every file has its lines, so nothing said of them is empty. */
  lemma EveryFileHasLines(data: Bytes)
    ensures HasLines(data, RawLines(data))
  {
    SplitRejoins(data, NL);
    RawLinesLoseNothing(data);
  }

  lemma TokensAre(data: Bytes, lines: seq<Bytes>, tokens: seq<Bytes>)
    requires HasLines(data, lines) && WithoutCR(lines, tokens)
    ensures Lines(data) == tokens
  {
    RawLinesAre(data, lines);
    forall i | 0 <= i < |lines|
      ensures DropCR(lines[i]) == tokens[i]
    {
    }
  }

  lemma WrittenFilesAre(tokens: seq<Bytes>, size: nat, files: seq<Bytes>)
    requires size > 0 && FilesWritten(tokens, size, |tokens|, files)
    ensures FilesOf(tokens, size, files)
  {
    PartCountBounds(|tokens|, size);
    forall j | 0 <= j < |files|
      ensures 0 <= j * size <= |tokens|
      ensures files[j] == Terminated(tokens[j * size..if (j + 1) * size < |tokens| then (j + 1) * size else |tokens|])
    {
      PartInside(j, |tokens|, size);
    }
  }

  /** There are as many lines as newlines, and one more if the file does not end in one. */
  lemma LineCount(data: Bytes)
    ensures |Lines(data)| == multiset(data)[NL] + if data == [] || data[|data| - 1] == NL then 0 else 1
  {
    EveryFileHasLines(data);
    NewlinesOf(RawLines(data));
    if data != Terminated(RawLines(data)) {
      assert multiset(data + [NL])[NL] == multiset(data)[NL] + 1;
    } else {
      TerminatedEndsInNewline(RawLines(data));
    }
  }

  lemma {:induction false} NewlinesOf(lines: seq<Bytes>)
    requires forall line | line in lines :: NL !in line
    ensures multiset(Terminated(lines))[NL] == |lines|
  {
    if lines != [] {
      var n := |lines| - 1;
      NewlinesOf(lines[..n]);
      assert lines[n] in lines && multiset(lines[n])[NL] == 0;
    }
  }

  // ---------- splitting by size ----------

  /** An open file: reads return between one and the wanted number of bytes, as the system likes,
      and report the end only when nothing is left. */
  class FileReader {
    const data: Bytes
    var pos: nat

    constructor (data: Bytes)
      ensures this.data == data && pos == 0
    {
      this.data := data;
      pos := 0;
    }

    method Read(want: nat) returns (bytes: Bytes, eof: bool)
      requires want > 0 && pos <= |data|
      modifies this
      ensures eof <==> old(pos) == |data|
      ensures eof ==> bytes == [] && pos == old(pos)
      ensures !eof ==> 0 < |bytes| <= want && old(pos) + |bytes| == pos <= |data| && bytes == data[old(pos)..pos]
    {
      if pos == |data| {
        return [], true;
      }
      var n: nat :| 1 <= n <= want && pos + n <= |data|;
      bytes, eof := data[pos..pos + n], false;
      pos := pos + n;
    }
  }

  const BUFFER_SIZE := 32 * 1024

  /** The inner loop: copy through the buffer until the chunk is full or the file ends. */
  method CopyChunk(file: FileReader, bytesPerChunk: nat) returns (out: Bytes)
    requires bytesPerChunk > 0 && file.pos <= |file.data|
    modifies file
    ensures file.pos == Min(old(file.pos) + bytesPerChunk, |file.data|)
    ensures out == file.data[old(file.pos)..file.pos]
  {
    out := [];
    var written := 0;
    while written < bytesPerChunk
      invariant written == |out| <= bytesPerChunk
      invariant old(file.pos) + written == file.pos <= |file.data|
      invariant out == file.data[old(file.pos)..file.pos]
      decreases bytesPerChunk - written
    {
      var toRead := BUFFER_SIZE;
      if bytesPerChunk - written < toRead {
        toRead := bytesPerChunk - written;
      }
      var bytes, eof := file.Read(toRead);
      if |bytes| > 0 {
        out := out + bytes;
        written := written + |bytes|;
      }
      if eof {
        break;
      }
    }
  }

  /** splitBySize: the chunk files are the consecutive parts of the input. */
  method SplitBySize(data: Bytes, bytesPerChunk: nat) returns (files: seq<Bytes>)
    requires bytesPerChunk > 0
    ensures |files| == PartCount(|data|, bytesPerChunk)
    ensures forall i | 0 <= i < |files| :: files[i] == Part(data, i, bytesPerChunk, |data|)
    ensures Flatten(files) == data
    ensures SlicesOf(data, bytesPerChunk, files)
  {
    var numChunks := (|data| + bytesPerChunk - 1) / bytesPerChunk;
    var file := new FileReader(data);
    files := [];
    for i := 0 to numChunks
      invariant |files| == i
      invariant file.pos == Min(i * bytesPerChunk, |data|)
      invariant forall k | 0 <= k < i :: files[k] == Part(data, k, bytesPerChunk, |data|)
    {
      PartInside(i, |data|, bytesPerChunk);
      assert (i + 1) * bytesPerChunk == i * bytesPerChunk + bytesPerChunk;
      var out := CopyChunk(file, bytesPerChunk);
      files := files + [out];
    }
    PartsCover(data, bytesPerChunk, files);
    PartCountBounds(|data|, bytesPerChunk);
    forall i | 0 <= i < |files|
      ensures 0 <= i * bytesPerChunk <= |data|
    {
      PartInside(i, |data|, bytesPerChunk);
    }
  }
}
