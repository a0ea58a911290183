/**
 * The data model of the file-processing pipeline
 * (core/file_processor/models.py): parser and chunking-strategy enums, the
 * chunking settings with their defaults, the langchain `Document`, and
 * `ProcessedDocument`, whose construction stamps metadata onto every chunk.
 */
module Models {
  import opened Records
  import opened Seqs

  datatype ParserType = Unstructured | LlamaParser | MegaparseVision

  /** The `.value` string of a parser type. */
  function ParserTypeValue(p: ParserType): string {
    match p
    case Unstructured => "unstructured"
    case LlamaParser => "llama_parser"
    case MegaparseVision => "megaparse_vision"
  }

  datatype ChunkingStrategy = Fast | Auto | HiRes

  /** The `.value` string of a chunking strategy. */
  function StrategyValue(s: ChunkingStrategy): string {
    match s
    case Fast => "fast"
    case Auto => "auto"
    case HiRes => "hi_res"
  }

  /** Distinct members have distinct values, so the enums round-trip through their strings. */
  lemma EnumValuesDistinct(p: ParserType, q: ParserType, s: ChunkingStrategy, t: ChunkingStrategy)
    ensures ParserTypeValue(p) == ParserTypeValue(q) ==> p == q
    ensures StrategyValue(s) == StrategyValue(t) ==> s == t
  {
    assert "unstructured"[0] != "llama_parser"[0] && "llama_parser"[0] != "megaparse_vision"[0];
    assert "megaparse_vision"[0] != "unstructured"[0];
    assert "fast"[0] != "auto"[0] && "auto"[0] != "hi_res"[0] && "hi_res"[0] != "fast"[0];
  }

  datatype ChunkingSettings = ChunkingSettings(
    chunkSize: int,
    chunkOverlap: int,
    separator: string,
    parserType: ParserType,
    strategy: ChunkingStrategy,
    checkTable: bool,
    parsingInstruction: Option<string>,
    modelName: string)

  /** `ChunkingSettings()` with every field at its declared default. */
  function DefaultSettings(): (s: ChunkingSettings)
    ensures s.chunkSize == 1000 && s.chunkOverlap == 200 && s.separator == "\n"
    ensures s.parserType == Unstructured && s.strategy == Auto
    ensures !s.checkTable && s.parsingInstruction == None && s.modelName == "gpt-4"
  {
    ChunkingSettings(1000, 200, "\n", Unstructured, Auto, false, None, "gpt-4")
  }

  /** A langchain `Document`: text and a metadata dictionary. */
  datatype Document = Document(pageContent: string, metadata: Metadata)

  /** The keys `__post_init__` writes before the document metadata. */
  function StampKeys(index: nat, originalFilename: string, fileExtension: string): Metadata {
    map["chunk_index" := Int(index), "original_filename" := Str(originalFilename), "file_extension" := Str(fileExtension)]
  }

  /**
   * `chunk.metadata.update({"chunk_index": index, "original_filename": ...,
   * "file_extension": ..., **document_metadata})`: the three stamped keys,
   * then every document-level entry (which wins), over the chunk's own
   * entries, which survive where not overwritten.
   */
  function StampMetadata(m: Metadata, index: nat, originalFilename: string, fileExtension: string, docMeta: Metadata): (r: Metadata)
    ensures r.Keys == m.Keys + {"chunk_index", "original_filename", "file_extension"} + docMeta.Keys
    ensures forall k :: k in docMeta ==> r[k] == docMeta[k]
    ensures "chunk_index" !in docMeta ==> r["chunk_index"] == Int(index)
    ensures "original_filename" !in docMeta ==> r["original_filename"] == Str(originalFilename)
    ensures "file_extension" !in docMeta ==> r["file_extension"] == Str(fileExtension)
    ensures forall k :: k in m && k !in docMeta && k !in {"chunk_index", "original_filename", "file_extension"} ==> r[k] == m[k]
  {
    m + (StampKeys(index, originalFilename, fileExtension) + docMeta)
  }

  /** The chunks after `__post_init__`: the i-th (0-based) stamped with index i + 1. */
  function Stamped(chunks: seq<Document>, docMeta: Metadata, originalFilename: string, fileExtension: string): (r: seq<Document>)
    ensures |r| == |chunks|
    ensures forall i :: 0 <= i < |chunks| ==>
      && r[i].pageContent == chunks[i].pageContent
      && r[i].metadata == StampMetadata(chunks[i].metadata, i + 1, originalFilename, fileExtension, docMeta)
  {
    seq(|chunks|, i requires 0 <= i < |chunks| =>
      chunks[i].(metadata := StampMetadata(chunks[i].metadata, i + 1, originalFilename, fileExtension, docMeta)))
  }

  /** Stamping twice gives the same metadata as stamping once: every written key is overwritten with the same value. */
  lemma StampIdempotent(m: Metadata, index: nat, name: string, ext: string, docMeta: Metadata)
    ensures StampMetadata(StampMetadata(m, index, name, ext, docMeta), index, name, ext, docMeta)
      == StampMetadata(m, index, name, ext, docMeta)
  {
  }

  /** The `@dataclass ProcessedDocument`; its constructor runs `__post_init__`. */
  class ProcessedDocument {
    var chunks: seq<Document>
    const metadata: Metadata
    const originalFilename: string
    const fileExtension: string

    constructor (chunks: seq<Document>, metadata: Metadata, originalFilename: string, fileExtension: string)
      ensures this.metadata == metadata && this.originalFilename == originalFilename && this.fileExtension == fileExtension
      ensures this.chunks == Stamped(chunks, metadata, originalFilename, fileExtension)
    {
      this.metadata := metadata;
      this.originalFilename := originalFilename;
      this.fileExtension := fileExtension;
      ghost var target := Stamped(chunks, metadata, originalFilename, fileExtension);
      var stamped := chunks;
      var idx := 0;
      while idx < |chunks|
        invariant 0 <= idx <= |chunks| && |stamped| == |chunks|
        invariant stamped[..idx] == target[..idx]
        invariant stamped[idx..] == chunks[idx..]
      {
        var chunk := stamped[idx];
        assert chunk == chunks[idx];
        var next := chunk.(metadata := StampMetadata(chunk.metadata, idx + 1, originalFilename, fileExtension, metadata));
        assert next == target[idx];
        UpdateExtendsPrefix(stamped, target, idx, next);
        UpdateKeepsSuffix(stamped, chunks, idx, next);
        stamped := stamped[idx := next];
        idx := idx + 1;
      }
      assert stamped == stamped[..idx];
      this.chunks := stamped;
    }
  }
}
