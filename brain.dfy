/**
 * The `Brain` aggregate (src/nexusmind/brain/brain.py): its identity, name,
 * chat history and model configuration, plus the two runtime components it
 * builds from them, the language-model endpoint and the persisted vector store.
 */
module Brains {
  import opened Records
  import opened Endpoint
  import opened VectorIndex
  import opened Paths
  import opened Storage
  import opened SrcVectorStore

  const DefaultName := "Default Brain"

  /** `_create_vector_store`: the store path derived from the brain's id. */
  function VectorStorePath(brainId: Uuid): (p: string)
    ensures |p| == |brainId| + 17
    ensures p[..11] == "storage/vs_" && p[11..11 + |brainId|] == brainId && p[11 + |brainId|..] == ".index"
  {
    "storage/vs_" + brainId + ".index"
  }

  /** An id in canonical UUID text: no '/' and no '.' (hex digits and '-'). */
  predicate PlainId(id: Uuid) {
    forall k :: 0 <= k < |id| ==> id[k] != '/' && id[k] != '.'
  }

  /** A brain's index lives at `storage/vs_<id>.index` and its chunk list at `storage/vs_<id>.json`. */
  lemma VectorStoreFiles(brainId: Uuid)
    requires PlainId(brainId)
    ensures ChunkPath(Some(VectorStorePath(brainId))) == Ok("storage/vs_" + brainId + ".json")
  {
    IndexChunkPath(brainId);
  }

  /** `_create_llm_endpoint`: an endpoint configured with the brain's own model settings. */
  function EndpointFor(s: BrainSnapshot, embedding: string -> Vector, chatCompletion: seq<Message> -> string): (e: LLMEndpoint)
    ensures e.modelName == s.llmModelName && e.temperature == s.temperature && e.maxTokens == s.maxTokens
    ensures e.embedding == embedding && e.chatCompletion == chatCompletion
  {
    LLMEndpoint(s.llmModelName, s.temperature, s.maxTokens, embedding, chatCompletion)
  }

  class Brain {
    const brainId: Uuid
    var name: string
    var history: seq<Exchange>
    const llmModelName: string
    const temperature: real
    const maxTokens: int
    /** Excluded from the serialised record. */
    var llmEndpoint: Option<LLMEndpoint>
    /** Excluded from the serialised record. */
    var vectorStore: FaissVectorStore?

    /** `model_dump`: the serialised fields. */
    function Snapshot(): BrainSnapshot
      reads this
    {
      BrainSnapshot(brainId, name, history, llmModelName, temperature, maxTokens)
    }

    /**
     * `Brain(...)`: the pydantic defaults for arguments not given (a fresh id,
     * "Default Brain", an empty history), then the endpoint built from the
     * configuration and a vector store at `storage/vs_<id>.index` over that
     * endpoint, which reloads whatever was saved there.
     */
    constructor(brainId: Option<Uuid>, freshId: Uuid, name: Option<string>, history: Option<seq<Exchange>>,
                llmModelName: string, temperature: real, maxTokens: int,
                embedding: string -> Vector, chatCompletion: seq<Message> -> string, rank: Ranker, disk: Disk)
      requires Loadable(disk.files, Some(VectorStorePath(if brainId.Some? then brainId.value else freshId)))
      ensures this.brainId == if brainId.Some? then brainId.value else freshId
      ensures this.name == if name.Some? then name.value else DefaultName
      ensures this.history == if history.Some? then history.value else []
      ensures this.llmModelName == llmModelName && this.temperature == temperature && this.maxTokens == maxTokens
      ensures llmEndpoint == Some(EndpointFor(Snapshot(), embedding, chatCompletion))
      ensures vectorStore != null && fresh(vectorStore)
      ensures vectorStore.endpoint == llmEndpoint.value && vectorStore.rank == rank && vectorStore.disk == disk
      ensures vectorStore.storePath == Some(VectorStorePath(this.brainId))
      ensures vectorStore.State() == Load(disk.files, vectorStore.storePath)
    {
      this.brainId := if brainId.Some? then brainId.value else freshId;
      this.name := if name.Some? then name.value else DefaultName;
      this.history := if history.Some? then history.value else [];
      this.llmModelName := llmModelName;
      this.temperature := temperature;
      this.maxTokens := maxTokens;
      new;
      var endpoint := EndpointFor(Snapshot(), embedding, chatCompletion);
      llmEndpoint := Some(endpoint);
      vectorStore := new FaissVectorStore(endpoint, Some(VectorStorePath(this.brainId)), rank, disk);
    }

    /** `Brain.model_validate(record)`: the fields only; `__init__` does not run, so there is no endpoint and no store. */
    constructor FromSnapshot(s: BrainSnapshot)
      ensures Snapshot() == s
      ensures llmEndpoint == None && vectorStore == null
    {
      brainId := s.brainId;
      name := s.name;
      history := s.history;
      llmModelName := s.llmModelName;
      temperature := s.temperature;
      maxTokens := s.maxTokens;
      llmEndpoint := None;
      vectorStore := null;
    }
  }
}
