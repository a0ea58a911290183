/**
 * Brain persistence (src/nexusmind/brain/serialization.py): one record per
 * brain under `brains/<id>.json`, written before the brain's vector store
 * saves itself.
 */
module BrainSerialization {
  import opened Records
  import opened Endpoint
  import opened VectorIndex
  import opened Storage
  import opened SrcVectorStore
  import opened Brains
  import opened Paths

  /** `get_brain_path`. */
  function GetBrainPath(brainId: Uuid): (p: string)
    ensures |p| == |brainId| + 12 && p[..7] == "brains/" && p[7..7 + |brainId|] == brainId
  {
    "brains/" + brainId + ".json"
  }

  /** Different brains have different record paths. */
  lemma GetBrainPathInjective(a: Uuid, b: Uuid)
    requires GetBrainPath(a) == GetBrainPath(b)
    ensures a == b
  {
    assert a == GetBrainPath(a)[7..7 + |a|];
  }

  function NotFound(brainId: Uuid): string {
    "No brain found with ID " + brainId
  }

  /** Every file at a brain's record path holds that brain's record. */
  ghost predicate RecordsAreBrains(files: map<string, Artifact>) {
    forall id :: GetBrainPath(id) in files ==>
      files[GetBrainPath(id)].BrainFile? && files[GetBrainPath(id)].snapshot.brainId == id
  }

  /** The record half of `save_brain`. */
  function SaveRecord(files: map<string, Artifact>, s: BrainSnapshot): map<string, Artifact> {
    files[GetBrainPath(s.brainId) := BrainFile(s)]
  }

  /** The record half of `load_brain`: the stored fields, or `FileNotFoundError`. */
  function LoadRecord(files: map<string, Artifact>, brainId: Uuid): (r: Result<BrainSnapshot, string>)
    requires RecordsAreBrains(files)
    ensures r.Err? <==> GetBrainPath(brainId) !in files
    ensures r.Err? ==> r.error == NotFound(brainId)
  {
    var path := GetBrainPath(brainId);
    if path !in files then Err(NotFound(brainId)) else Ok(files[path].snapshot)
  }

  /** Saving keeps every record a brain record. */
  lemma SaveRecordKeepsRecords(files: map<string, Artifact>, s: BrainSnapshot)
    requires RecordsAreBrains(files)
    ensures RecordsAreBrains(SaveRecord(files, s))
  {
    forall id | GetBrainPath(id) == GetBrainPath(s.brainId) ensures id == s.brainId {
      GetBrainPathInjective(id, s.brainId);
    }
  }

  /** A saved record loads back as the same id, name, history and model settings. */
  lemma RecordRoundTrip(files: map<string, Artifact>, s: BrainSnapshot)
    requires RecordsAreBrains(files)
    ensures RecordsAreBrains(SaveRecord(files, s)) && LoadRecord(SaveRecord(files, s), s.brainId) == Ok(s)
  {
    SaveRecordKeepsRecords(files, s);
  }

  /** Saving one brain overwrites only its own record. */
  lemma SaveRecordKeepsOthers(files: map<string, Artifact>, s: BrainSnapshot, other: Uuid)
    requires RecordsAreBrains(files) && other != s.brainId
    ensures RecordsAreBrains(SaveRecord(files, s))
    ensures LoadRecord(SaveRecord(files, s), other) == LoadRecord(files, other)
  {
    SaveRecordKeepsRecords(files, s);
    if GetBrainPath(other) == GetBrainPath(s.brainId) {
      GetBrainPathInjective(other, s.brainId);
    }
  }

  /** A vector store's files never collide with brain records: one lies under "storage/", the other under "brains/". */
  lemma StoreFilesAreNotRecords(brainId: Uuid, other: Uuid)
    requires PlainId(brainId)
    ensures VectorStorePath(brainId) != GetBrainPath(other)
    ensures ChunkPath(Some(VectorStorePath(brainId))).value != GetBrainPath(other)
  {
    VectorStoreFiles(brainId);
    assert VectorStorePath(brainId)[0] != GetBrainPath(other)[0];
    assert ChunkPath(Some(VectorStorePath(brainId))).value[0] != GetBrainPath(other)[0];
  }

  /** A brain's store saving itself leaves every brain record as it was. */
  lemma StoreSaveKeepsRecords(files: map<string, Artifact>, brainId: Uuid, state: StoreState)
    requires RecordsAreBrains(files) && PlainId(brainId)
    ensures var out := SaveEffect(files, Some(VectorStorePath(brainId)), state).files;
      && RecordsAreBrains(out)
      && forall id :: LoadRecord(out, id) == LoadRecord(files, id)
  {
    var p := VectorStorePath(brainId);
    VectorStoreFiles(brainId);
    var q := ChunkPath(Some(p)).value;
    forall id ensures GetBrainPath(id) != p && GetBrainPath(id) != q {
      StoreFilesAreNotRecords(brainId, id);
    }
    if state.index.Some? {
      WritesKeepRecords(files, p, q, IndexFile(state.index.value), ChunkFile(state.indexToChunk));
    }
  }

  /** Writing two files that are not brain records leaves every record as it was. */
  lemma WritesKeepRecords(files: map<string, Artifact>, p: string, q: string, a: Artifact, b: Artifact)
    requires RecordsAreBrains(files)
    requires forall id :: GetBrainPath(id) != p && GetBrainPath(id) != q
    ensures RecordsAreBrains(files[p := a][q := b])
    ensures forall id :: LoadRecord(files[p := a][q := b], id) == LoadRecord(files, id)
  {
  }

  /**
   * `save_brain` followed by loading: the record comes back unchanged and,
   * when the brain's store has an index, a store re-created at the brain's
   * store path gets the same index and chunk list.
   */
  lemma SavedBrainReloads(files: map<string, Artifact>, s: BrainSnapshot, state: StoreState)
    requires RecordsAreBrains(files) && PlainId(s.brainId)
    ensures var out := SaveEffect(SaveRecord(files, s), Some(VectorStorePath(s.brainId)), state);
      && out.error == None
      && RecordsAreBrains(out.files)
      && LoadRecord(out.files, s.brainId) == Ok(s)
      && (state.index.Some? ==>
            Loadable(out.files, Some(VectorStorePath(s.brainId)))
            && Load(out.files, Some(VectorStorePath(s.brainId))) == state)
  {
    var storePath := Some(VectorStorePath(s.brainId));
    var written := SaveRecord(files, s);
    var out := SaveEffect(written, storePath, state);
    VectorStoreFiles(s.brainId);
    SaveRecordKeepsRecords(files, s);
    forall id | GetBrainPath(id) in out.files
      ensures out.files[GetBrainPath(id)].BrainFile? && out.files[GetBrainPath(id)].snapshot.brainId == id
    {
      StoreFilesAreNotRecords(s.brainId, id);
    }
    StoreFilesAreNotRecords(s.brainId, s.brainId);
    if state.index.Some? {
      assert Suffix(VectorStorePath(s.brainId)) != ".json" by {
        IndexChunkSuffix(s.brainId);
      }
      SaveThenLoad(written, storePath, state.index.value, state.indexToChunk);
    }
  }

  /** The store path's suffix is ".index". */
  lemma IndexChunkSuffix(brainId: Uuid)
    requires PlainId(brainId)
    ensures Suffix(VectorStorePath(brainId)) != ".json"
  {
    VectorStoreFiles(brainId);
    var p := VectorStorePath(brainId);
    var cp := ChunkPath(Some(p)).value;
    assert |cp| == |p| - 1;
  }

  /**
   * `save_brain`: the record is written first; then, when the brain has a
   * vector store, the store saves itself, and its error (if any) is the result.
   */
  method SaveBrain(brain: Brain, disk: Disk) returns (error: Option<string>)
    requires brain.vectorStore != null ==> brain.vectorStore.disk == disk
    modifies disk
    ensures var written := SaveRecord(old(disk.files), brain.Snapshot());
      if brain.vectorStore == null then disk.files == written && error == None
      else Saved(disk.files, error) == SaveEffect(written, brain.vectorStore.storePath, brain.vectorStore.State())
  {
    disk.files := SaveRecord(disk.files, brain.Snapshot());
    error := None;
    if brain.vectorStore != null {
      error := brain.vectorStore.SaveToDisk();
    }
  }

  /** `load_brain`: `FileNotFoundError` for an unknown id, otherwise a brain with the stored fields and no runtime components. */
  method LoadBrain(disk: Disk, brainId: Uuid) returns (r: Result<Brain, string>)
    requires RecordsAreBrains(disk.files)
    ensures r.Err? <==> GetBrainPath(brainId) !in disk.files
    ensures r.Err? ==> r.error == NotFound(brainId)
    ensures r.Ok? ==> fresh(r.value) && Ok(r.value.Snapshot()) == LoadRecord(disk.files, brainId)
    ensures r.Ok? ==> r.value.llmEndpoint == None && r.value.vectorStore == null
  {
    var record := LoadRecord(disk.files, brainId);
    if record.Err? {
      return Err(record.error);
    }
    var brain := new Brain.FromSnapshot(record.value);
    return Ok(brain);
  }

  /**
   * Loading as `Brain.load` is documented to behave: the stored fields, then
   * the endpoint and the vector store re-created from them as `__init__` does.
   */
  method LoadWithRuntime(disk: Disk, brainId: Uuid, embedding: string -> Vector, chatCompletion: seq<Message> -> string,
                         rank: Ranker) returns (r: Result<Brain, string>)
    requires RecordsAreBrains(disk.files)
    requires Loadable(disk.files, Some(VectorStorePath(brainId)))
    ensures r.Err? <==> GetBrainPath(brainId) !in disk.files
    ensures r.Err? ==> r.error == NotFound(brainId)
    ensures r.Ok? ==> var b := r.value;
      && fresh(b) && Ok(b.Snapshot()) == LoadRecord(disk.files, brainId)
      && b.llmEndpoint == Some(EndpointFor(b.Snapshot(), embedding, chatCompletion))
      && b.vectorStore != null && fresh(b.vectorStore)
      && b.vectorStore.endpoint == b.llmEndpoint.value && b.vectorStore.disk == disk && b.vectorStore.rank == rank
      && b.vectorStore.storePath == Some(VectorStorePath(brainId))
      && b.vectorStore.State() == Load(disk.files, b.vectorStore.storePath)
  {
    r := LoadBrain(disk, brainId);
    if r.Err? {
      return;
    }
    var brain := r.value;
    assert brain.brainId == brainId;
    var endpoint := EndpointFor(brain.Snapshot(), embedding, chatCompletion);
    brain.llmEndpoint := Some(endpoint);
    brain.vectorStore := new FaissVectorStore(endpoint, Some(VectorStorePath(brainId)), rank, disk);
  }
}
