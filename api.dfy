/**
 * The request rules of the HTTP service (main.py): the API-key check, the
 * in-memory task-status table of background uploads, and the
 * get-or-create rule for brains. HTTP framing is outside the model; an
 * HTTP error is its status code and detail text.
 */
module Api {
  import opened Records
  import opened Text
  import opened Endpoint
  import opened Paths
  import opened VectorIndex
  import opened Storage
  import opened Registry
  import opened TxtProcessor
  import opened SrcVectorStore
  import opened Brains
  import opened BrainSerialization
  import opened Seqs

  datatype HttpError = HttpError(status: int, detail: string)

  /** The `X-API-Key` header is missing or empty. */
  const NotAuthenticated := HttpError(403, "Not authenticated")
  const BadCredentials := HttpError(403, "Could not validate credentials")
  const TaskNotFound := HttpError(404, "Task not found")

  /**
   * `get_api_key`: a missing or empty header is refused; with no configured
   * keys any key is accepted; otherwise only a configured key is, and the
   * accepted key is returned.
   */
  function GetApiKey(header: Option<string>, apiKeys: seq<string>): (r: Result<string, HttpError>)
    ensures header.None? || header == Some("") ==> r == Err(NotAuthenticated)
    ensures header.Some? && header.value != "" ==> (r.Ok? <==> apiKeys == [] || header.value in apiKeys)
    ensures header.Some? && header.value != "" && r.Err? ==> r.error == BadCredentials
    ensures r.Ok? ==> header.Some? && r.value == header.value
  {
    if header.None? || header.value == "" then Err(NotAuthenticated)
    else if apiKeys == [] then Ok(header.value)
    else if header.value !in apiKeys then Err(BadCredentials)
    else Ok(header.value)
  }

  datatype TaskStatus = Pending | Processing | Success | Failure {
    function Name(): string {
      match this
      case Pending => "PENDING"
      case Processing => "PROCESSING"
      case Success => "SUCCESS"
      case Failure => "FAILURE"
    }
  }

  /** The processors the service registers; only the plain-text one. */
  datatype ProcessorKind = SimpleTxt

  /** The settings of a brain that `get_or_create_brain` creates. */
  function NewBrainSnapshot(brainId: Uuid): (s: BrainSnapshot)
    ensures s.brainId == brainId && s.name == "Brain " + brainId && s.history == []
    ensures s.llmModelName == "gpt-4o" && s.temperature == 0.0 && s.maxTokens == 256
  {
    BrainSnapshot(brainId, "Brain " + brainId, [], "gpt-4o", 0.0, 256)
  }

  /** The processor cannot read the upload as text. */
  const NotText := "the upload is not valid UTF-8"
  /** FAISS refuses vectors whose width is not the index's dimension. */
  const DimensionMismatch := "embedding dimension does not match the index"

  /** `ValueError(f"Vector store not available for brain {brain_id}.")`. */
  function NoVectorStoreFor(brainId: Uuid): string {
    "Vector store not available for brain " + brainId + "."
  }

  /** The chunks `processor.process` makes of an upload stored under its own name. */
  function UploadChunks(fileId: Uuid, fileName: string, text: string, newId: nat -> Uuid): seq<Chunk> {
    Select(SplitLines(text), NonBlank, MakeChunk(NexusFile(fileId, fileName, fileName, map[]), newId))
  }

  /** `TASK_STATUSES`, the module-level table of upload task statuses. */
  class TaskTable {
    var statuses: map<string, TaskStatus>

    constructor()
      ensures statuses == map[]
    {
      statuses := map[];
    }

    /** `TASK_STATUSES[task_id] = status`. */
    method Set(taskId: string, status: TaskStatus)
      modifies this
      ensures statuses == old(statuses)[taskId := status]
    {
      statuses := statuses[taskId := status];
    }
  }

  class App {
    const tasks: TaskTable
    /** `get_processor_registry()`. */
    const registry: ProcessorRegistry<ProcessorKind>
    const disk: Disk
    /** The language-model provider and the index ranking every brain's endpoint and store use. */
    const embedding: string -> Vector
    const chatCompletion: seq<Message> -> string
    const rank: Ranker

    /** A service with no tasks and a registry holding the plain-text processor under ".txt". */
    constructor(disk: Disk, embedding: string -> Vector, chatCompletion: seq<Message> -> string, rank: Ranker)
      ensures fresh(tasks) && tasks.statuses == map[]
      ensures fresh(registry) && registry.Valid() && registry.processors == map[".txt" := SimpleTxt]
      ensures this.disk == disk && this.embedding == embedding && this.chatCompletion == chatCompletion && this.rank == rank
    {
      this.disk := disk;
      this.embedding := embedding;
      this.chatCompletion := chatCompletion;
      this.rank := rank;
      tasks := new TaskTable();
      var registry := new ProcessorRegistry<ProcessorKind>();
      assert NormalizeExtension(".txt") == ".txt";
      registry.RegisterProcessor(".txt", SimpleTxt);
      this.registry := registry;
    }

    /** `upload_file`: the new task id is recorded as PENDING. */
    method UploadFile(taskId: string) returns (id: string)
      modifies tasks
      ensures id == taskId && tasks.statuses == old(tasks.statuses)[taskId := Pending]
    {
      tasks.Set(taskId, Pending);
      return taskId;
    }

    /** `get_upload_status`: the recorded status, or 404 for an unknown task. */
    method GetUploadStatus(taskId: string) returns (r: Result<TaskStatus, HttpError>)
      ensures r.Err? <==> taskId !in tasks.statuses
      ensures r.Err? ==> r.error == TaskNotFound
      ensures r.Ok? ==> r.value == tasks.statuses[taskId]
    {
      if taskId !in tasks.statuses {
        return Err(TaskNotFound);
      }
      return Ok(tasks.statuses[taskId]);
    }

    /**
     * A brain ready for ingestion and chat: an endpoint built from its own
     * settings and a vector store at its store path over that endpoint,
     * holding what `files` held there.
     */
    ghost predicate HasRuntime(brain: Brain, files: map<string, Artifact>)
      reads brain, brain.vectorStore
    {
      && brain.llmEndpoint == Some(EndpointFor(brain.Snapshot(), embedding, chatCompletion))
      && brain.vectorStore != null && brain.vectorStore.disk == disk
      && brain.vectorStore.endpoint == brain.llmEndpoint.value && brain.vectorStore.rank == rank
      && brain.vectorStore.storePath == Some(VectorStorePath(brain.brainId))
      && Loadable(files, brain.vectorStore.storePath)
      && brain.vectorStore.State() == Load(files, brain.vectorStore.storePath)
    }

    /**
     * An upload is ingested: a processor is registered for its extension, its
     * text can be read, and its valid embeddings fit the brain's store as
     * `files` holds it.
     */
    ghost predicate Accepted(files: map<string, Artifact>, brainId: Uuid, fileName: string, fileId: Uuid,
                             content: Option<string>, newId: nat -> Uuid)
      reads registry
      requires Loadable(files, Some(VectorStorePath(brainId)))
    {
      && Lookup(registry.processors, fileName).Ok?
      && content.Some?
      && FitsIndex(Load(files, Some(VectorStorePath(brainId))).index,
                   ValidEmbeddings(embedding, UploadChunks(fileId, fileName, content.value, newId)))
    }

    /** The brain's store after an upload with valid embeddings is added to the one `files` holds. */
    ghost function StoreAfterUpload(files: map<string, Artifact>, brainId: Uuid, valid: seq<Vector>, chunks: seq<Chunk>): StoreState
      requires Loadable(files, Some(VectorStorePath(brainId))) && valid != []
    {
      var before := Load(files, Some(VectorStorePath(brainId)));
      StoreState(Some(AfterAdd(before.index, valid)), before.indexToChunk + chunks)
    }

    /**
     * What ingesting an upload into the brain's store, which `files` held
     * before, comes to: it succeeds exactly when the upload is accepted, and
     * then the store saved at the brain's path holds the upload's chunks
     * after the earlier ones.
     */
    ghost predicate Ingested(files: map<string, Artifact>, brainId: Uuid, fileName: string, fileId: Uuid,
                             content: Option<string>, newId: nat -> Uuid, error: Option<string>)
      reads registry, disk
      requires Loadable(files, Some(VectorStorePath(brainId)))
    {
      && (error.None? <==> Accepted(files, brainId, fileName, fileId, content, newId))
      && (error.None? ==>
            var chunks := UploadChunks(fileId, fileName, content.value, newId);
            var valid := ValidEmbeddings(embedding, chunks);
            chunks != [] && valid != [] ==>
              && Loadable(disk.files, Some(VectorStorePath(brainId)))
              && Load(disk.files, Some(VectorStorePath(brainId))) == StoreAfterUpload(files, brainId, valid, chunks))
    }

    /**
     * `get_or_create_brain` as written: `Brain.load` when the brain's record
     * exists, which gives the stored fields without an endpoint or a vector
     * store; otherwise a new brain named "Brain <id>" with gpt-4o,
     * temperature 0.0 and 256 tokens, saved before it is returned.
     */
    method GetOrCreateBrain(brainId: Uuid) returns (brain: Brain)
      requires RecordsAreBrains(disk.files) && PlainId(brainId)
      requires Loadable(disk.files, Some(VectorStorePath(brainId)))
      modifies disk
      ensures RecordsAreBrains(disk.files)
      ensures fresh(brain) && brain.brainId == brainId
      ensures GetBrainPath(brainId) in old(disk.files) ==>
        && disk.files == old(disk.files) && Ok(brain.Snapshot()) == LoadRecord(disk.files, brainId)
        && brain.llmEndpoint == None && brain.vectorStore == null
      ensures GetBrainPath(brainId) !in old(disk.files) ==>
        && brain.Snapshot() == NewBrainSnapshot(brainId) && LoadRecord(disk.files, brainId) == Ok(NewBrainSnapshot(brainId))
        && HasRuntime(brain, old(disk.files)) && fresh(brain.vectorStore)
    {
      var loaded := LoadBrain(disk, brainId);
      if loaded.Ok? {
        return loaded.value;
      }
      brain := CreateBrain(brainId);
    }

    /**
     * `get_or_create_brain` with `Brain.load` re-creating the runtime
     * components, as its documentation intends: either way the brain has an
     * endpoint and a vector store holding what was saved at its store path.
     */
    method GetOrCreateBrainWithRuntime(brainId: Uuid) returns (brain: Brain)
      requires RecordsAreBrains(disk.files) && PlainId(brainId)
      requires Loadable(disk.files, Some(VectorStorePath(brainId)))
      modifies disk
      ensures RecordsAreBrains(disk.files)
      ensures fresh(brain) && brain.brainId == brainId
      ensures HasRuntime(brain, old(disk.files)) && fresh(brain.vectorStore)
      ensures GetBrainPath(brainId) in old(disk.files) ==>
        disk.files == old(disk.files) && Ok(brain.Snapshot()) == LoadRecord(disk.files, brainId)
      ensures GetBrainPath(brainId) !in old(disk.files) ==>
        brain.Snapshot() == NewBrainSnapshot(brainId) && LoadRecord(disk.files, brainId) == Ok(NewBrainSnapshot(brainId))
    {
      var loaded := LoadWithRuntime(disk, brainId, embedding, chatCompletion, rank);
      if loaded.Ok? {
        return loaded.value;
      }
      brain := CreateBrain(brainId);
    }

    /** The create branch of `get_or_create_brain`: a new brain with the service's defaults, saved. */
    method CreateBrain(brainId: Uuid) returns (brain: Brain)
      requires RecordsAreBrains(disk.files) && PlainId(brainId)
      requires Loadable(disk.files, Some(VectorStorePath(brainId)))
      modifies disk
      ensures RecordsAreBrains(disk.files)
      ensures fresh(brain) && brain.brainId == brainId
      ensures brain.Snapshot() == NewBrainSnapshot(brainId) && LoadRecord(disk.files, brainId) == Ok(NewBrainSnapshot(brainId))
      ensures HasRuntime(brain, old(disk.files)) && fresh(brain.vectorStore)
    {
      brain := new Brain(Some(brainId), brainId, Some("Brain " + brainId), None, "gpt-4o", 0.0, 256,
                         embedding, chatCompletion, rank, disk);
      assert brain.Snapshot() == NewBrainSnapshot(brainId);
      ghost var before := disk.files;
      var error := SaveBrain(brain, disk);
      SavedBrainReloads(before, brain.Snapshot(), brain.vectorStore.State());
    }

    /**
     * How an upload into brain `brainId` ends, as written, from the files
     * on disk before it: an unknown extension or an unreadable upload raises
     * its error; a brain whose record already exists comes back from
     * `Brain.load` without a vector store, so its upload fails with "Vector
     * store not available" and leaves the disk as it was; a new brain ingests
     * as `Ingested` says. Either way the brain's record is on disk.
     */
    ghost predicate UploadEnded(files: map<string, Artifact>, brainId: Uuid, fileName: string, fileId: Uuid,
                                content: Option<string>, newId: nat -> Uuid, error: Option<string>)
      reads registry, disk
      requires Loadable(files, Some(VectorStorePath(brainId)))
    {
      && RecordsAreBrains(disk.files) && LoadRecord(disk.files, brainId).Ok?
      && (Lookup(registry.processors, fileName).Err? ==> error == Some(Lookup(registry.processors, fileName).error))
      && (Lookup(registry.processors, fileName).Ok? && content.None? ==> error == Some(NotText))
      && (GetBrainPath(brainId) in files ==>
            && disk.files == files && error.Some?
            && (Lookup(registry.processors, fileName).Ok? && content.Some? ==> error == Some(NoVectorStoreFor(brainId))))
      && (GetBrainPath(brainId) !in files ==> Ingested(files, brainId, fileName, fileId, content, newId, error))
    }

    /**
     * How an upload ends when every brain comes with its runtime: the same
     * errors for an unknown extension or an unreadable upload, and otherwise
     * `Ingested` whether the brain is new or stored.
     */
    ghost predicate UploadEndedWithRuntime(files: map<string, Artifact>, brainId: Uuid, fileName: string, fileId: Uuid,
                                           content: Option<string>, newId: nat -> Uuid, error: Option<string>)
      reads registry, disk
      requires Loadable(files, Some(VectorStorePath(brainId)))
    {
      && RecordsAreBrains(disk.files) && LoadRecord(disk.files, brainId).Ok?
      && (Lookup(registry.processors, fileName).Err? ==> error == Some(Lookup(registry.processors, fileName).error))
      && (Lookup(registry.processors, fileName).Ok? && content.None? ==> error == Some(NotText))
      && Ingested(files, brainId, fileName, fileId, content, newId, error)
    }

    /**
     * `process_uploaded_file` as written: the upload task becomes PROCESSING
     * and ends SUCCESS when the upload succeeds, FAILURE when any step
     * raises; other tasks are untouched.
     */
    method ProcessUploadedFile(taskId: string, brainId: Uuid, fileName: string, fileId: Uuid,
                               content: Option<string>, newId: nat -> Uuid) returns (error: Option<string>)
      requires RecordsAreBrains(disk.files) && PlainId(brainId)
      requires Loadable(disk.files, Some(VectorStorePath(brainId)))
      modifies tasks, disk
      ensures tasks.statuses == old(tasks.statuses)[taskId := if error.None? then Success else Failure]
      ensures UploadEnded(old(disk.files), brainId, fileName, fileId, content, newId, error)
    {
      tasks.Set(taskId, Processing);
      error := Upload(brainId, fileName, fileId, content, newId);
      tasks.Set(taskId, if error.None? then Success else Failure);
    }

    /** `process_uploaded_file` over `GetOrCreateBrainWithRuntime`. */
    method ProcessUploadedFileWithRuntime(taskId: string, brainId: Uuid, fileName: string, fileId: Uuid,
                                          content: Option<string>, newId: nat -> Uuid) returns (error: Option<string>)
      requires RecordsAreBrains(disk.files) && PlainId(brainId)
      requires Loadable(disk.files, Some(VectorStorePath(brainId)))
      modifies tasks, disk
      ensures tasks.statuses == old(tasks.statuses)[taskId := if error.None? then Success else Failure]
      ensures UploadEndedWithRuntime(old(disk.files), brainId, fileName, fileId, content, newId, error)
    {
      tasks.Set(taskId, Processing);
      error := UploadWithRuntime(brainId, fileName, fileId, content, newId);
      tasks.Set(taskId, if error.None? then Success else Failure);
    }

    /** The `try` block of `process_uploaded_file` as written: get or create the brain, then ingest. */
    method Upload(brainId: Uuid, fileName: string, fileId: Uuid, content: Option<string>, newId: nat -> Uuid)
      returns (error: Option<string>)
      requires RecordsAreBrains(disk.files) && PlainId(brainId)
      requires Loadable(disk.files, Some(VectorStorePath(brainId)))
      modifies disk
      ensures UploadEnded(old(disk.files), brainId, fileName, fileId, content, newId, error)
    {
      var brain := GetOrCreateBrain(brainId);
      ghost var record := LoadRecord(disk.files, brainId);
      error := IngestInto(brain, old(disk.files), fileName, fileId, content, newId);
      assert LoadRecord(disk.files, brainId) == record;
    }

    /** The `try` block of `process_uploaded_file` over `GetOrCreateBrainWithRuntime`. */
    method UploadWithRuntime(brainId: Uuid, fileName: string, fileId: Uuid, content: Option<string>, newId: nat -> Uuid)
      returns (error: Option<string>)
      requires RecordsAreBrains(disk.files) && PlainId(brainId)
      requires Loadable(disk.files, Some(VectorStorePath(brainId)))
      modifies disk
      ensures UploadEndedWithRuntime(old(disk.files), brainId, fileName, fileId, content, newId, error)
    {
      var brain := GetOrCreateBrainWithRuntime(brainId);
      ghost var record := LoadRecord(disk.files, brainId);
      error := IngestInto(brain, old(disk.files), fileName, fileId, content, newId);
      assert LoadRecord(disk.files, brainId) == record;
    }

    /**
     * `Ingest` into a brain's own store: without a store the upload fails and
     * nothing changes; a brain with its runtime, over a store that `files`
     * held, ingests as `Ingested` says.
     */
    method IngestInto(brain: Brain, ghost files: map<string, Artifact>, fileName: string, fileId: Uuid,
                      content: Option<string>, newId: nat -> Uuid) returns (error: Option<string>)
      requires RecordsAreBrains(disk.files) && PlainId(brain.brainId)
      requires brain.vectorStore != null ==> HasRuntime(brain, files)
      modifies brain.vectorStore, disk
      ensures Lookup(registry.processors, fileName).Err? ==> error == Some(Lookup(registry.processors, fileName).error)
      ensures Lookup(registry.processors, fileName).Ok? && content.None? ==> error == Some(NotText)
      ensures brain.vectorStore == null ==>
        && error.Some? && disk.files == old(disk.files)
        && (Lookup(registry.processors, fileName).Ok? && content.Some? ==> error == Some(NoVectorStoreFor(brain.brainId)))
      ensures brain.vectorStore != null ==> Ingested(files, brain.brainId, fileName, fileId, content, newId, error)
      ensures RecordsAreBrains(disk.files)
      ensures forall id :: LoadRecord(disk.files, id) == old(LoadRecord(disk.files, id))
    {
      error := Ingest(brain.vectorStore, brain.brainId, fileName, fileId, content, newId);
    }

    /**
     * Steps 2 to 4 of `process_uploaded_file`: the processor for the file
     * name is looked up, the upload read and split into chunks, the brain's
     * vector store checked, and the chunks added to it, which saves it.
     * Brain records are left as they were; a failure changes nothing.
     */
    method Ingest(store: FaissVectorStore?, brainId: Uuid, fileName: string, fileId: Uuid,
                  content: Option<string>, newId: nat -> Uuid) returns (error: Option<string>)
      requires RecordsAreBrains(disk.files) && PlainId(brainId)
      requires store != null ==> store.disk == disk && store.storePath == Some(VectorStorePath(brainId))
      modifies store, disk
      ensures Lookup(registry.processors, fileName).Err? ==> error == Some(Lookup(registry.processors, fileName).error)
      ensures Lookup(registry.processors, fileName).Ok? && content.None? ==> error == Some(NotText)
      ensures Lookup(registry.processors, fileName).Ok? && content.Some? && store == null ==> error == Some(NoVectorStoreFor(brainId))
      ensures error.None? <==>
        && Lookup(registry.processors, fileName).Ok? && content.Some? && store != null
        && FitsIndex(old(store.index), ValidEmbeddings(store.endpoint.embedding, UploadChunks(fileId, fileName, content.value, newId)))
      ensures error.Some? ==> disk.files == old(disk.files) && (store != null ==> store.State() == old(store.State()))
      ensures error.None? ==>
        var chunks := UploadChunks(fileId, fileName, content.value, newId);
        var valid := ValidEmbeddings(store.endpoint.embedding, chunks);
        if chunks == [] || valid == [] then store.State() == old(store.State()) && disk.files == old(disk.files)
        else
          && store.index == Some(AfterAdd(old(store.index), valid)) && store.indexToChunk == old(store.indexToChunk) + chunks
          && Loadable(disk.files, store.storePath) && Load(disk.files, store.storePath) == store.State()
      ensures RecordsAreBrains(disk.files)
      ensures forall id :: LoadRecord(disk.files, id) == old(LoadRecord(disk.files, id))
    {
      var nexusFile := NexusFile(fileId, fileName, fileName, map[]);
      var processor := registry.GetProcessor(nexusFile.fileName);
      if processor.Err? {
        return Some(processor.error);
      }
      if content.None? {
        return Some(NotText);
      }
      var chunks := Process(nexusFile, content.value, newId);
      if store == null {
        return Some(NoVectorStoreFor(brainId));
      }
      if !FitsIndex(store.index, ValidEmbeddings(store.endpoint.embedding, chunks)) {
        return Some(DimensionMismatch);
      }
      ghost var before := disk.files;
      error := store.AddDocuments(chunks);
      if chunks != [] && ValidEmbeddings(store.endpoint.embedding, chunks) != [] {
        VectorStoreFiles(brainId);
        IndexChunkSuffix(brainId);
        SaveThenLoad(before, store.storePath, store.index.value, store.indexToChunk);
      }
      StoreSaveKeepsRecords(before, brainId, store.State());
    }
  }
}
