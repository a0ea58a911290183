/**
 * The file system as the persisting components see it: a map from path to
 * what was last written there. `faiss.write_index`/`read_index`, the JSON
 * chunk list and the brain's JSON record are kept as values, so that what
 * is read back is exactly what was written.
 */
module Storage {
  import opened Records
  import opened VectorIndex

  /** One `{"user": ..., "assistant": ...}` entry of a brain's history. */
  datatype Exchange = Exchange(user: string, assistant: string)

  /** The serialised fields of a `Brain` (its runtime endpoint and store are excluded). */
  datatype BrainSnapshot = BrainSnapshot(
    brainId: Uuid,
    name: string,
    history: seq<Exchange>,
    llmModelName: string,
    temperature: real,
    maxTokens: int)

  datatype Artifact =
    | IndexFile(index: FlatIndex)
    | ChunkFile(chunks: seq<Chunk>)
    | BrainFile(snapshot: BrainSnapshot)

  /** The directory tree shared by the vector stores and the brain records. */
  class Disk {
    var files: map<string, Artifact>

    constructor(files: map<string, Artifact>)
      ensures this.files == files
    {
      this.files := files;
    }
  }
}
