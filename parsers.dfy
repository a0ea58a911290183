/**
 * `FileParser` (core/file_processor/parsers.py): reads a local file, splits
 * its text with the chosen strategy and wraps the pieces in a
 * `ProcessedDocument`. The langchain splitter is a parameter.
 */
module Parsers {
  import opened Text
  import opened Seqs
  import opened Records
  import opened Paths
  import opened Models

  /** What a `RecursiveCharacterTextSplitter` is built with. */
  datatype SplitterConfig = SplitterConfig(chunkSize: int, chunkOverlap: int, separators: seq<string>)

  /** `splitter.split_text(text)`, for a splitter built with the given configuration. */
  type Splitter = (SplitterConfig, string) -> seq<string>

  /** A file on the local disk: its text (as decoded by `_parse_unstructured`) and its `os.stat` values. */
  datatype LocalFile = LocalFile(text: string, size: int, createdTime: real, modifiedTime: real)
  /** Contents longer than this are split with the fast strategy under AUTO. */
  const AutoThreshold: int := 100000

  /** The `HI_RES` separators, in priority order. */
  const HiResSeparators: seq<string> := [
    "\n\n", "。\n", "！\n", "？\n", "；\n", ".\n", "!\n", "?\n", ";\n",
    "。", "！", "？", "；", ". ", "! ", "? ", "; ", "\n", " ", ""]

  /** The characters `"。！？；.!?;"` trimmed from both ends of a `HI_RES` chunk. */
  predicate IsPunct(c: char) {
    c == '。' || c == '！' || c == '？' || c == '；' || c == '.' || c == '!' || c == '?' || c == ';'
  }

  /** `int(x)` of a value, truncating toward zero. */
  function TruncDiv10(n: int): (q: int)
    ensures n >= 0 ==> q == n / 10
    ensures n < 0 ==> q == -((-n) / 10)
  {
    if n >= 0 then n / 10 else -((-n) / 10)
  }

  /** `min(chunk_overlap * 2, int(chunk_size * 0.3))`. */
  function HiResOverlap(s: ChunkingSettings): (overlap: int)
    ensures overlap <= TruncDiv10(3 * s.chunkSize)
    ensures overlap <= 2 * s.chunkOverlap
    ensures overlap == TruncDiv10(3 * s.chunkSize) || overlap == 2 * s.chunkOverlap
  {
    var maxOverlap := TruncDiv10(3 * s.chunkSize);
    if 2 * s.chunkOverlap <= maxOverlap then 2 * s.chunkOverlap else maxOverlap
  }

  /** For a non-negative chunk size the overlap never exceeds 30% of it. */
  lemma OverlapCapped(s: ChunkingSettings)
    requires s.chunkSize >= 0
    ensures 10 * HiResOverlap(s) <= 3 * s.chunkSize
  {
  }

  /** chunk_size 100 and chunk_overlap 30 give an overlap of 30 (not 60); the defaults give 300. */
  lemma OverlapExamples(s: ChunkingSettings)
    ensures s.chunkSize == 100 && s.chunkOverlap == 30 ==> HiResOverlap(s) == 30
    ensures HiResOverlap(DefaultSettings()) == 300
  {
  }

  /** `s.endswith("。")`. */
  predicate EndsWithStop(s: string) {
    s != [] && s[|s| - 1] == '。'
  }

  /** A cleaned chunk never starts with whitespace or punctuation. */
  predicate CleanFront(s: string) {
    s == [] || (!IsSpace(s[0]) && !IsPunct(s[0]))
  }

  /** A prefix of a string with no leading whitespace survives `strip()` as a prefix. */
  lemma StripKeepsFront(s: string)
    ensures (s == [] || !IsSpace(s[0])) ==> Strip(s) == s[..|Strip(s)|]
  {
    if s == [] || !IsSpace(s[0]) {
      assert StripLeft(s) == s;
    }
  }

  /** `while chunk and chunk[0] in P: chunk = chunk[1:].strip()`. */
  function TrimLeading(s: string): (r: string)
    ensures r == s || IsStripped(r)
    ensures r == [] || !IsPunct(r[0])
    ensures |r| <= |s|
    decreases |s|
  {
    if s != [] && IsPunct(s[0]) then TrimLeading(Strip(s[1..])) else s
  }

  /** `while chunk and chunk[-1] in P: chunk = chunk[:-1].strip()`. */
  function TrimTrailing(s: string): (r: string)
    ensures r == [] || !IsPunct(r[|r| - 1])
    ensures |r| <= |s|
    decreases |s|
  {
    if s != [] && IsPunct(s[|s| - 1]) then
      var t := Strip(s[..|s| - 1]);
      assert |t| < |s|;
      TrimTrailing(t)
    else s
  }

  /** On a stripped string, trimming trailing punctuation only cuts from the end and leaves it stripped. */
  lemma {:induction false} TrimTrailingPrefix(s: string)
    requires IsStripped(s)
    ensures IsStripped(TrimTrailing(s)) && TrimTrailing(s) == s[..|TrimTrailing(s)|]
    decreases |s|
  {
    if s != [] && IsPunct(s[|s| - 1]) {
      TrimTrailingPrefix(Strip(s[..|s| - 1]));
      TrimTrailingPunct(s);
    } else {
      assert s[..|s|] == s;
    }
  }

  /** The punctuation case: what trimming leaves of the re-stripped rest is a prefix of `s`. */
  lemma TrimTrailingPunct(s: string)
    requires IsStripped(s) && s != [] && IsPunct(s[|s| - 1])
    requires var t := Strip(s[..|s| - 1]); IsStripped(TrimTrailing(t)) && TrimTrailing(t) == t[..|TrimTrailing(t)|]
    ensures IsStripped(TrimTrailing(s)) && TrimTrailing(s) == s[..|TrimTrailing(s)|]
  {
    var t := Strip(s[..|s| - 1]);
    DropLastStrip(s);
    var r := TrimTrailing(t);
    assert TrimTrailing(s) == r;
    assert s[..|t|][..|r|] == s[..|r|];
  }

  /** Dropping the last character of a stripped string and stripping again leaves a prefix. */
  lemma DropLastStrip(s: string)
    requires IsStripped(s) && s != []
    ensures Strip(s[..|s| - 1]) == s[..|Strip(s[..|s| - 1])|]
  {
    var init := s[..|s| - 1];
    var t := Strip(init);
    StripKeepsFront(init);
    assert t == init[..|t|];
  }

  /**
   * The clean-up of one raw piece: strip, trim punctuation at both ends, and
   * (unless it is the last piece) end it with "。".
   */
  function CleanChunk(raw: string, notLast: bool): (r: string)
    ensures IsStripped(r) && CleanFront(r)
    ensures notLast && r != [] ==> EndsWithStop(r)
    ensures !notLast ==> r == [] || !IsPunct(r[|r| - 1])
  {
    var c := TrimTrailing(TrimLeading(Strip(raw)));
    TrimmedShape(raw);
    if notLast && c != [] && !EndsWithStop(c) then
      AppendStop(c);
      c + "。"
    else c
  }

  /** Trimming both ends of a stripped piece leaves it stripped, with no punctuation at either end. */
  lemma TrimmedShape(raw: string)
    ensures var c := TrimTrailing(TrimLeading(Strip(raw)));
      IsStripped(c) && CleanFront(c) && (c == [] || !IsPunct(c[|c| - 1]))
  {
    var t := TrimLeading(Strip(raw));
    TrimTrailingPrefix(t);
    var c := TrimTrailing(t);
    if c != [] {
      assert c[0] == t[0];
    }
  }

  /** Appending "。" to a cleaned, non-empty piece keeps it clean. */
  lemma AppendStop(c: string)
    requires c != [] && IsStripped(c) && CleanFront(c)
    ensures IsStripped(c + "。") && CleanFront(c + "。") && EndsWithStop(c + "。")
  {
    var d := c + "。";
    assert d[0] == c[0] && d[|d| - 1] == '。';
    assert d[|d| - 1..] == "。";
  }

  /** Every raw piece cleaned, each knowing whether it is the last one. */
  function Cleaned(raw: seq<string>): (r: seq<string>)
    ensures |r| == |raw|
    ensures forall i :: 0 <= i < |raw| ==> r[i] == CleanChunk(raw[i], i < |raw| - 1)
  {
    seq(|raw|, i requires 0 <= i < |raw| => CleanChunk(raw[i], i < |raw| - 1))
  }

  /** `s.split("。")[-1]`: what follows the last "。". */
  function LastSegment(s: string): string {
    AfterLast(s, '。')
  }

  /**
   * The duplicate-suppression step: if the chunk starts with the stripped
   * text after the previous chunk's last "。", that prefix is cut off.
   */
  function Dedup(previous: string, chunk: string): (r: string)
    ensures |r| <= |chunk|
  {
    var tail := Strip(LastSegment(previous));
    if StartsWith(chunk, tail) then Strip(chunk[|tail|..]) else chunk
  }

  /** After a chunk ending in "。" the tail is empty, so the step leaves a stripped chunk unchanged. */
  lemma DedupNoop(previous: string, chunk: string)
    requires EndsWithStop(previous)
    requires IsStripped(chunk)
    ensures Dedup(previous, chunk) == chunk
  {
    assert previous[|previous| - 1] == '。';
    assert LastSegment(previous) == [];
    assert chunk[0..] == chunk;
    StripIdentity(chunk);
  }

  function NonEmpty(s: string): bool { s != [] }

  function AsDocument(s: string, i: nat, n: nat): Document { Document(s, map[]) }

  /** The `HI_RES` result: every non-empty cleaned piece, in order, as a `Document` without metadata. */
  function HiResDocuments(raw: seq<string>): seq<Document> {
    Select(Cleaned(raw), NonEmpty, AsDocument)
  }

  /**
   * The `HI_RES` output: no more documents than raw pieces; each one the
   * cleaned form of a raw piece, in raw order, non-empty, stripped, not
   * starting with punctuation; ending in "。" unless it comes from the last
   * piece, in which case it does not end with punctuation.
   */
  lemma HiResShape(raw: seq<string>)
    ensures var docs := HiResDocuments(raw); var from := Positions(Cleaned(raw), NonEmpty);
      && |docs| == |from| <= |raw|
      && (forall j, k :: 0 <= j < k < |docs| ==> from[j] < from[k])
      && forall j :: 0 <= j < |docs| ==>
        && docs[j] == Document(CleanChunk(raw[from[j]], from[j] < |raw| - 1), map[])
        && docs[j].pageContent != []
        && IsStripped(docs[j].pageContent)
        && CleanFront(docs[j].pageContent)
        && (from[j] < |raw| - 1 ==> EndsWithStop(docs[j].pageContent))
        && (from[j] == |raw| - 1 ==> !IsPunct(docs[j].pageContent[|docs[j].pageContent| - 1]))
  {
    var cleaned := Cleaned(raw);
    var docs := HiResDocuments(raw);
    var from := Positions(cleaned, NonEmpty);
    SelectAtPositions(cleaned, NonEmpty, AsDocument);
    forall j | 0 <= j < |docs|
      ensures docs[j] == Document(CleanChunk(raw[from[j]], from[j] < |raw| - 1), map[])
      ensures docs[j].pageContent != [] && IsStripped(docs[j].pageContent) && CleanFront(docs[j].pageContent)
      ensures from[j] < |raw| - 1 ==> EndsWithStop(docs[j].pageContent)
      ensures from[j] == |raw| - 1 ==> !IsPunct(docs[j].pageContent[|docs[j].pageContent| - 1])
    {
      var i := from[j];
      assert docs[j] == AsDocument(cleaned[i], i, j);
      assert cleaned[i] == CleanChunk(raw[i], i < |raw| - 1) && NonEmpty(cleaned[i]);
    }
  }

  /**
   * One turn of the clean-up loop: the cleaned piece is stripped (so the
   * duplicate check after a piece ending in "。" leaves it as it is); a
   * non-empty piece is appended and, unless it is the last, ends in "。".
   */
  lemma CleanUpStep(chunks: seq<string>, i: nat, processed: seq<Document>, chunk: string)
    requires i < |chunks| && chunk == CleanChunk(chunks[i], i < |chunks| - 1)
    requires processed == Select(Cleaned(chunks)[..i], NonEmpty, AsDocument)
    requires processed != [] ==> EndsWithStop(processed[|processed| - 1].pageContent)
    ensures IsStripped(chunk)
    ensures chunk != [] ==> Select(Cleaned(chunks)[..i + 1], NonEmpty, AsDocument) == processed + [Document(chunk, map[])]
    ensures chunk == [] ==> Select(Cleaned(chunks)[..i + 1], NonEmpty, AsDocument) == processed
    ensures chunk != [] && i + 1 < |chunks| ==> EndsWithStop(chunk)
  {
    var cleaned := Cleaned(chunks);
    assert cleaned[i] == chunk;
    TakeSnoc(cleaned, i);
    SelectSnoc(cleaned[..i], chunk, NonEmpty, AsDocument);
  }

  class FileParser {
    const chunkingSettings: ChunkingSettings
    /** The splitter library; called with the configuration each strategy builds. */
    const split: Splitter

    /** `FileParser(chunking_settings)`: the given settings, or the defaults when `None`. */
    constructor (settings: Option<ChunkingSettings>, split: Splitter)
      ensures chunkingSettings == (if settings.Some? then settings.value else DefaultSettings())
      ensures this.split == split
    {
      chunkingSettings := if settings.Some? then settings.value else DefaultSettings();
      this.split := split;
    }

    /** The splitter of `__init__`: the configured size and overlap, the configured separator first. */
    function FastConfig(): (c: SplitterConfig)
      ensures c.chunkSize == chunkingSettings.chunkSize && c.chunkOverlap == chunkingSettings.chunkOverlap
      ensures c.separators == [chunkingSettings.separator, "\n\n", "\n", " ", ""]
    {
      SplitterConfig(chunkingSettings.chunkSize, chunkingSettings.chunkOverlap, [chunkingSettings.separator, "\n\n", "\n", " ", ""])
    }

    /** The splitter of `_hi_res_chunking`: the configured size, the capped overlap, the fine separators. */
    function HiResConfig(): (c: SplitterConfig)
      ensures c.chunkSize == chunkingSettings.chunkSize
      ensures c.chunkOverlap == HiResOverlap(chunkingSettings) && c.separators == HiResSeparators
    {
      SplitterConfig(chunkingSettings.chunkSize, HiResOverlap(chunkingSettings), HiResSeparators)
    }

    /** `_fast_chunking`: one `Document` per split string, unchanged and in order. */
    function FastChunking(content: string): (docs: seq<Document>)
      ensures var pieces := split(FastConfig(), content);
        |docs| == |pieces| && forall i :: 0 <= i < |pieces| ==> docs[i] == Document(pieces[i], map[])
    {
      var pieces := split(FastConfig(), content);
      seq(|pieces|, i requires 0 <= i < |pieces| => Document(pieces[i], map[]))
    }

    /** `_hi_res_chunking`: split, then the clean-up loop over the pieces. */
    method HiResChunking(content: string) returns (processed: seq<Document>)
      ensures processed == HiResDocuments(split(HiResConfig(), content))
    {
      var chunks := split(HiResConfig(), content);
      processed := CleanUp(chunks);
    }

    /** The post-processing loop of `_hi_res_chunking`. */
    static method CleanUp(chunks: seq<string>) returns (processed: seq<Document>)
      ensures processed == HiResDocuments(chunks)
    {
      ghost var cleaned := Cleaned(chunks);
      processed := [];
      var i := 0;
      assert cleaned[..0] == [];
      while i < |chunks|
        invariant 0 <= i <= |chunks|
        invariant processed == Select(cleaned[..i], NonEmpty, AsDocument)
        invariant i < |chunks| && processed != [] ==> EndsWithStop(processed[|processed| - 1].pageContent)
      {
        var chunk := CleanOne(chunks[i], i < |chunks| - 1);
        CleanUpStep(chunks, i, processed, chunk);
        processed := AppendChunk(processed, chunk);
        i := i + 1;
      }
      assert cleaned[..i] == cleaned;
    }

    /**
     * The end of that loop's body: the duplicate check against the previous
     * document, then the chunk is kept unless it is empty. After a document
     * ending in "。" a stripped chunk passes the check unchanged.
     */
    static method AppendChunk(processed: seq<Document>, chunk: string) returns (next: seq<Document>)
      requires processed != [] ==> EndsWithStop(processed[|processed| - 1].pageContent)
      requires IsStripped(chunk)
      ensures chunk != [] ==> next == processed + [Document(chunk, map[])]
      ensures chunk == [] ==> next == processed
      ensures next != [] && (chunk != [] ==> EndsWithStop(chunk)) ==> EndsWithStop(next[|next| - 1].pageContent)
    {
      var c := chunk;
      if processed != [] && c != [] {
        var lastChunk := processed[|processed| - 1].pageContent;
        c := Deduplicate(lastChunk, c);
      }
      if c != [] {
        next := processed + [Document(c, map[])];
      } else {
        next := processed;
      }
    }

    /** The duplicate check of that loop; after a chunk ending in "。" it keeps a cleaned chunk as it is. */
    static method Deduplicate(previous: string, chunk: string) returns (r: string)
      ensures r == Dedup(previous, chunk)
      ensures EndsWithStop(previous) && IsStripped(chunk) ==> r == chunk
    {
      var tail := Strip(LastSegment(previous));
      if StartsWith(chunk, tail) {
        r := Strip(chunk[|tail|..]);
      } else {
        r := chunk;
      }
      if EndsWithStop(previous) && IsStripped(chunk) {
        DedupNoop(previous, chunk);
      }
    }

    /** The body of that loop up to the duplicate check: strip, trim punctuation at both ends, add "。". */
    static method CleanOne(raw: string, notLast: bool) returns (chunk: string)
      ensures chunk == CleanChunk(raw, notLast)
    {
      chunk := Strip(raw);
      while chunk != [] && IsPunct(chunk[0])
        invariant TrimLeading(chunk) == TrimLeading(Strip(raw))
        decreases |chunk|
      {
        chunk := Strip(chunk[1..]);
      }
      while chunk != [] && IsPunct(chunk[|chunk| - 1])
        invariant TrimTrailing(chunk) == TrimTrailing(TrimLeading(Strip(raw)))
        decreases |chunk|
      {
        chunk := Strip(chunk[..|chunk| - 1]);
      }
      if notLast && chunk != [] && !EndsWithStop(chunk) {
        chunk := chunk + "。";
      }
    }

    /** `_auto_chunking`: fast splitting above 100000 characters, `HI_RES` otherwise. */
    method AutoChunking(content: string) returns (docs: seq<Document>)
      ensures |content| > AutoThreshold ==> docs == FastChunking(content)
      ensures |content| <= AutoThreshold ==> docs == HiResDocuments(split(HiResConfig(), content))
    {
      if |content| > AutoThreshold {
        docs := FastChunking(content);
      } else {
        docs := HiResChunking(content);
      }
    }

    /** The documents the configured strategy yields: FAST and HI_RES by name, anything else AUTO. */
    function StrategyDocuments(content: string): seq<Document> {
      match chunkingSettings.strategy
      case Fast => FastChunking(content)
      case HiRes => HiResDocuments(split(HiResConfig(), content))
      case Auto => if |content| > AutoThreshold then FastChunking(content) else HiResDocuments(split(HiResConfig(), content))
    }

    /** The strategy dispatch of `parse_file`. */
    method ChunkContent(content: string) returns (docs: seq<Document>)
      ensures docs == StrategyDocuments(content)
    {
      if chunkingSettings.strategy == Fast {
        docs := FastChunking(content);
      } else if chunkingSettings.strategy == HiRes {
        docs := HiResChunking(content);
      } else {
        docs := AutoChunking(content);
      }
    }

    /** Under AUTO, exactly 100000 characters still take the `HI_RES` path; one more takes the fast one. */
    lemma AutoBoundary(content: string)
      requires chunkingSettings.strategy == Auto
      ensures |content| == 100000 ==> StrategyDocuments(content) == HiResDocuments(split(HiResConfig(), content))
      ensures |content| == 100001 ==> StrategyDocuments(content) == FastChunking(content)
    {
    }

    /** `_get_file_metadata`: size and times from the file system, and the two setting values. */
    function FileMetadata(file: LocalFile): (m: Metadata)
      ensures m.Keys == {"file_size", "created_time", "modified_time", "parser_type", "chunking_strategy"}
      ensures m["file_size"] == Int(file.size)
      ensures m["parser_type"] == Str(ParserTypeValue(chunkingSettings.parserType))
      ensures m["chunking_strategy"] == Str(StrategyValue(chunkingSettings.strategy))
    {
      map["file_size" := Int(file.size), "created_time" := Number(file.createdTime),
          "modified_time" := Number(file.modifiedTime),
          "parser_type" := Str(ParserTypeValue(chunkingSettings.parserType)),
          "chunking_strategy" := Str(StrategyValue(chunkingSettings.strategy))]
    }

    /**
     * `parse_file(file_path)`: `FileNotFoundError` for a path not on disk;
     * otherwise the file's text chunked by the configured strategy, with the
     * file metadata, the file name and the lower-cased suffix.
     */
    method ParseFile(files: map<string, LocalFile>, filePath: string) returns (r: Result<ProcessedDocument, string>)
      ensures filePath !in files <==> r.Err?
      ensures r.Err? ==> r.error == "文件未找到: " + filePath
      ensures r.Ok? ==>
        && fresh(r.value)
        && r.value.metadata == FileMetadata(files[filePath])
        && r.value.originalFilename == PathName(filePath)
        && r.value.fileExtension == Lower(Suffix(filePath))
        && r.value.chunks == Stamped(StrategyDocuments(files[filePath].text), FileMetadata(files[filePath]),
                                     PathName(filePath), Lower(Suffix(filePath)))
    {
      if filePath !in files {
        return Err("文件未找到: " + filePath);
      }
      var file := files[filePath];
      var fileExtension := Lower(Suffix(filePath));
      var content := file.text;
      var chunks := ChunkContent(content);
      var document := new ProcessedDocument(chunks, FileMetadata(file), PathName(filePath), fileExtension);
      r := Ok(document);
    }
  }
}
