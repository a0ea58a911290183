/**
 * `SimpleTxtProcessor.process`
 * (core/nexusmind/processor/implementations/simple_txt_processor.py): one
 * chunk per line of the decoded text whose `strip()` is non-empty.
 */
module TxtProcessor {
  import opened Text
  import opened Seqs
  import opened Records

  /** The test `if line.strip():`. */
  predicate NonBlank(line: string) {
    exists k :: 0 <= k < |line| && !IsSpace(line[k])
  }

  /** The chunk made for a kept line: the line verbatim, the file's id and name, and its 1-based line number. */
  function LineChunk(file: NexusFile, line: string, lineNumber: nat, id: Uuid): Chunk {
    Chunk(id, file.fileId, line, map["file_name" := Str(file.fileName), "line_number" := Int(lineNumber)])
  }

  /** The chunk the loop builds for line `i` when it is the `n`-th one kept; `newId(n)` is its fresh `chunk_id`. */
  function MakeChunk(file: NexusFile, newId: nat -> Uuid): (string, nat, nat) -> Chunk {
    (line: string, i: nat, n: nat) => LineChunk(file, line, i + 1, newId(n))
  }

  /**
   * `process(file)`: the file's bytes, already read from storage and decoded,
   * are split with `splitlines()` and handed to the line loop.
   */
  method Process(file: NexusFile, content: string, newId: nat -> Uuid) returns (chunks: seq<Chunk>)
    ensures chunks == Select(SplitLines(content), NonBlank, MakeChunk(file, newId))
  {
    var lines := SplitLines(content);
    chunks := ChunkLines(file, lines, newId);
  }

  /** The `for i, line in enumerate(lines)` loop: a chunk for every non-blank line, in order. */
  method ChunkLines(file: NexusFile, lines: seq<string>, newId: nat -> Uuid) returns (chunks: seq<Chunk>)
    ensures chunks == Select(lines, NonBlank, MakeChunk(file, newId))
  {
    chunks := [];
    var i := 0;
    while i < |lines|
      invariant 0 <= i <= |lines|
      invariant chunks == Select(lines[..i], NonBlank, MakeChunk(file, newId))
    {
      ChunkLinesStep(file, lines, i, newId, chunks);
      chunks := KeepLine(file, lines[i], i, newId, chunks);
      i := i + 1;
    }
    assert lines[..i] == lines;
  }

  /** The loop body: `if line.strip():` append the line's chunk. */
  method KeepLine(file: NexusFile, line: string, i: nat, newId: nat -> Uuid, chunks: seq<Chunk>) returns (next: seq<Chunk>)
    ensures NonBlank(line) ==> next == chunks + [LineChunk(file, line, i + 1, newId(|chunks|))]
    ensures !NonBlank(line) ==> next == chunks
  {
    StripNonEmpty(line);
    next := chunks;
    if Strip(line) != [] {
      next := next + [LineChunk(file, line, i + 1, newId(|chunks|))];
    }
  }

  /** One turn of the line loop extends the selection by the line when, and only when, it is kept. */
  lemma ChunkLinesStep(file: NexusFile, lines: seq<string>, i: nat, newId: nat -> Uuid, chunks: seq<Chunk>)
    requires i < |lines| && chunks == Select(lines[..i], NonBlank, MakeChunk(file, newId))
    ensures NonBlank(lines[i]) ==>
      Select(lines[..i + 1], NonBlank, MakeChunk(file, newId)) == chunks + [LineChunk(file, lines[i], i + 1, newId(|chunks|))]
    ensures !NonBlank(lines[i]) ==> Select(lines[..i + 1], NonBlank, MakeChunk(file, newId)) == chunks
  {
    SelectSnoc(lines[..i], lines[i], NonBlank, MakeChunk(file, newId));
    assert lines[..i + 1] == lines[..i] + [lines[i]];
  }

  /** `line.strip()` is non-empty exactly when the line has a non-whitespace character. */
  lemma StripNonEmpty(line: string)
    ensures Strip(line) != [] <==> NonBlank(line)
  {
  }

  /**
   * The j-th chunk is the j-th non-blank line, verbatim, numbered with its
   * 1-based position, carrying the file's id and name; line numbers strictly
   * increase and stay within the line count.
   */
  lemma ChunksAreKeptLines(file: NexusFile, lines: seq<string>, newId: nat -> Uuid)
    ensures var chunks := Select(lines, NonBlank, MakeChunk(file, newId)); var kept := Positions(lines, NonBlank);
      && |chunks| == |kept|
      && (forall j :: 0 <= j < |chunks| ==>
        && chunks[j].content == lines[kept[j]]
        && NonBlank(chunks[j].content)
        && chunks[j].documentId == file.fileId
        && chunks[j].metadata == map["file_name" := Str(file.fileName), "line_number" := Int(kept[j] + 1)]
        && 1 <= kept[j] + 1 <= |lines|)
      && (forall j, k :: 0 <= j < k < |chunks| ==> kept[j] < kept[k])
  {
    var chunks := Select(lines, NonBlank, MakeChunk(file, newId));
    var kept := Positions(lines, NonBlank);
    SelectAtPositions(lines, NonBlank, MakeChunk(file, newId));
    forall j | 0 <= j < |chunks|
      ensures chunks[j] == LineChunk(file, lines[kept[j]], kept[j] + 1, newId(j))
      ensures NonBlank(lines[kept[j]])
    {
    }
  }

  /** Every non-blank line yields a chunk: the line verbatim with its 1-based line number. */
  lemma EveryNonBlankLineKept(file: NexusFile, lines: seq<string>, newId: nat -> Uuid, i: nat)
    requires i < |lines| && NonBlank(lines[i])
    ensures var chunks := Select(lines, NonBlank, MakeChunk(file, newId));
      exists j :: 0 <= j < |chunks| && chunks[j] == LineChunk(file, lines[i], i + 1, newId(j))
  {
    var make := MakeChunk(file, newId);
    SelectComplete(lines, NonBlank, make, i);
    var j :| 0 <= j < |Select(lines, NonBlank, make)| && Select(lines, NonBlank, make)[j] == make(lines[i], i, j);
    assert make(lines[i], i, j) == LineChunk(file, lines[i], i + 1, newId(j));
  }

  /** A line with a non-whitespace character is kept; an empty line is not. */
  lemma NonBlankAt(line: string, k: nat)
    requires k < |line| && !IsSpace(line[k])
    ensures NonBlank(line) && !NonBlank("")
  {
  }

  /** Positions of the non-blank lines among four lines of which only the third is blank. */
  lemma KeptOfFour<T>(l: seq<T>, p: T -> bool)
    requires |l| == 4 && p(l[0]) && p(l[1]) && !p(l[2]) && p(l[3])
    ensures Positions(l, p) == [0, 1, 3]
  {
    PositionsSnoc(l[..3], l[3], p);
    PositionsSnoc(l[..2], l[2], p);
    PositionsSnoc(l[..1], l[1], p);
    PositionsSnoc(l[..0], l[0], p);
    assert l[..1] == l[..0] + [l[0]];
    assert l[..2] == l[..1] + [l[1]];
    assert l[..3] == l[..2] + [l[2]];
    assert l == l[..3] + [l[3]];
  }

  /** Three lines joined with a blank line before the last split back into four. */
  lemma SplitWithBlank(a: string, b: string, d: string)
    requires NoLineBreak(a) && NoLineBreak(b) && NoLineBreak(d) && d != []
    ensures SplitLines(a + "\n" + b + "\n\n" + d) == [a, b, "", d]
  {
    var lines := [a, b, "", d];
    assert lines[1..][1..][1..] == [d];
    assert Join("\n", lines[1..][1..]) == "" + "\n" + d;
    assert Join("\n", lines[1..]) == b + "\n" + ("" + "\n" + d);
    assert Join("\n", lines) == a + "\n" + (b + "\n" + ("" + "\n" + d));
    assert a + "\n" + (b + "\n" + ("" + "\n" + d)) == a + "\n" + b + "\n\n" + d;
    SplitLinesOfJoin(lines);
  }

  /** "First line.\nSecond line.\n\nThird line." splits into four lines. */
  lemma FourLines(content: string)
    requires content == "First line." + "\n" + "Second line." + "\n\n" + "Third line."
    ensures SplitLines(content) == ["First line.", "Second line.", "", "Third line."]
  {
    SampleLines();
    SplitWithBlank("First line.", "Second line.", "Third line.");
  }

  lemma SampleLines()
    ensures NoLineBreak("First line.") && NoLineBreak("Second line.") && NoLineBreak("Third line.")
  {
  }

  /** Of those four lines, chunks come from lines 1, 2 and 4. */
  lemma ThreeOfFourLines(content: string)
    requires content == "First line." + "\n" + "Second line." + "\n\n" + "Third line."
    ensures Positions(SplitLines(content), NonBlank) == [0, 1, 3]
  {
    FourLines(content);
    var lines := SplitLines(content);
    NonBlankAt(lines[0], 0);
    NonBlankAt(lines[1], 0);
    NonBlankAt(lines[3], 0);
    KeptOfFour(lines, NonBlank);
  }
}
