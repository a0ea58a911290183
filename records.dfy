/**
 * Records shared by the ingestion path, the vector stores and the RAG
 * pipelines: the `Chunk` and `NexusFile` models, the values a metadata
 * dictionary can hold, and the Option/Result wrappers used for the
 * source's `None` and its raised exceptions.
 */
module Records {

  datatype Option<T> = None | Some(value: T)

  datatype Result<T, E> = Ok(value: T) | Err(error: E)

  /** A UUID, kept as its canonical text form. */
  type Uuid = string

  /** The values stored in a metadata dictionary (`str`, `int` or `float`). */
  datatype Value = Str(s: string) | Int(i: int) | Number(x: real)

  type Metadata = map<string, Value>

  /** A piece of a document (core/nexusmind/processor/splitter.py). */
  datatype Chunk = Chunk(chunkId: Uuid, documentId: Uuid, content: string, metadata: Metadata)

  /** A stored file (core/nexusmind/files/file.py). */
  datatype NexusFile = NexusFile(fileId: Uuid, fileName: string, filePath: string, metadata: Metadata)

  /** The `content` of every chunk, in order (the `[c.content for c in chunks]` comprehensions). */
  function Contents(chunks: seq<Chunk>): (r: seq<string>)
    ensures |r| == |chunks|
    ensures forall i :: 0 <= i < |chunks| ==> r[i] == chunks[i].content
  {
    seq(|chunks|, i requires 0 <= i < |chunks| => chunks[i].content)
  }
}
