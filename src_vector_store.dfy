/**
 * The persisted FAISS vector store (src/nexusmind/storage/faiss_vector_store.py).
 * Its state is the optional index and the list `index_to_chunk`; with a
 * store path it writes the index to that path and the chunk list to the
 * same path with suffix ".json", and reloads both when constructed.
 */
module SrcVectorStore {
  import opened Records
  import opened Endpoint
  import opened VectorIndex
  import opened Paths
  import opened Storage
  import opened Text

  const NoStorePathForChunks := "store_path must be set to save or load chunks."
  const NoStorePathForSave := "store_path must be set to save the index."

  /** `if self.store_path:` — present and non-empty. */
  predicate IsSet(storePath: Option<string>) {
    storePath.Some? && storePath.value != ""
  }

  /** `_get_chunk_path`: the store path with its suffix replaced by ".json". */
  function ChunkPath(storePath: Option<string>): (r: Result<string, string>)
    ensures !IsSet(storePath) ==> r == Err(NoStorePathForChunks)
    ensures IsSet(storePath) ==> (r.Ok? <==> PathName(storePath.value) != [])
    ensures r.Ok? ==> var p := storePath.value; var keep := |p| - |Suffix(p)|;
      EndsWith(r.value, ".json") && |r.value| == keep + 5 && r.value[..keep] == p[..keep]
  {
    if !IsSet(storePath) then Err(NoStorePathForChunks)
    else WithSuffix(storePath.value, ".json")
  }

  /** The chunk file is a different file from the index file unless the store path already ends in ".json". */
  lemma ChunkPathDiffers(storePath: Option<string>)
    requires ChunkPath(storePath).Ok?
    requires Suffix(storePath.value) != ".json"
    ensures ChunkPath(storePath).value != storePath.value
  {
  }

  datatype StoreState = StoreState(index: Option<FlatIndex>, indexToChunk: seq<Chunk>)

  /** What `save_to_disk` leaves behind: the files and the error it raised, if any. */
  datatype Saved = Saved(files: map<string, Artifact>, error: Option<string>)

  /**
   * `save_to_disk`: an error without a store path; nothing while there is no
   * index; otherwise the index is written first, then the chunk list at the
   * chunk path (whose failure leaves the index already written).
   */
  function SaveEffect(files: map<string, Artifact>, storePath: Option<string>, state: StoreState): Saved {
    if !IsSet(storePath) then Saved(files, Some(NoStorePathForSave))
    else if state.index.None? then Saved(files, None)
    else
      var written := files[storePath.value := IndexFile(state.index.value)];
      match ChunkPath(storePath)
      case Err(e) => Saved(written, Some(e))
      case Ok(cp) => Saved(written[cp := ChunkFile(state.indexToChunk)], None)
  }

  /** What a store can be constructed over: an existing store path holds an index, and its chunk path, if present, a chunk list. */
  predicate Loadable(files: map<string, Artifact>, storePath: Option<string>) {
    IsSet(storePath) && storePath.value in files ==>
      && files[storePath.value].IndexFile?
      && ChunkPath(storePath).Ok?
      && (ChunkPath(storePath).value in files ==> files[ChunkPath(storePath).value].ChunkFile?)
  }

  /** The state of a freshly constructed store: `_load_from_disk` when the store path exists. */
  function Load(files: map<string, Artifact>, storePath: Option<string>): StoreState
    requires Loadable(files, storePath)
  {
    if IsSet(storePath) && storePath.value in files then
      var cp := ChunkPath(storePath).value;
      StoreState(Some(files[storePath.value].index), if cp in files then files[cp].chunks else [])
    else StoreState(None, [])
  }

  /** Saving an index and loading it back restores the index and the chunk list. */
  lemma SaveThenLoad(files: map<string, Artifact>, storePath: Option<string>, index: FlatIndex, indexToChunk: seq<Chunk>)
    requires IsSet(storePath) && ChunkPath(storePath).Ok?
    requires Suffix(storePath.value) != ".json"
    ensures var s := SaveEffect(files, storePath, StoreState(Some(index), indexToChunk));
      && s.error == None
      && Loadable(s.files, storePath)
      && Load(s.files, storePath) == StoreState(Some(index), indexToChunk)
  {
    ChunkPathDiffers(storePath);
  }

  /** Saving writes at most the store path and the chunk path; every other file is untouched. */
  lemma SaveKeepsOthers(files: map<string, Artifact>, storePath: Option<string>, state: StoreState, p: string)
    requires !IsSet(storePath) || (p != storePath.value && (ChunkPath(storePath).Ok? ==> p != ChunkPath(storePath).value))
    ensures var s := SaveEffect(files, storePath, state);
      (p in s.files <==> p in files) && (p in files ==> s.files[p] == files[p])
  {
  }

  /** Saving fails with the store-path error exactly when the store path is unset, and is a no-op while there is no index. */
  lemma SaveErrors(files: map<string, Artifact>, storePath: Option<string>, state: StoreState)
    ensures var s := SaveEffect(files, storePath, state);
      && (s.error == Some(NoStorePathForSave) <==> !IsSet(storePath))
      && (state.index.None? ==> s.files == files)
      && (s.error.Some? && IsSet(storePath) ==> state.index.Some? && PathName(storePath.value) == [])
  {
    if IsSet(storePath) && state.index.Some? && ChunkPath(storePath).Err? {
      var e := ChunkPath(storePath).error;
      assert e[|e| - 1] == 'e' != NoStorePathForSave[|NoStorePathForSave| - 1];
    }
  }

  class FaissVectorStore {
    const endpoint: LLMEndpoint
    const storePath: Option<string>
    /** The neighbour positions `index.search` reports. */
    const rank: Ranker
    const disk: Disk
    var index: Option<FlatIndex>
    var indexToChunk: seq<Chunk>

    function State(): StoreState
      reads this
    {
      StoreState(index, indexToChunk)
    }

    /** `__init__`: an empty store, loaded from disk when the store path is set and exists. */
    constructor(endpoint: LLMEndpoint, storePath: Option<string>, rank: Ranker, disk: Disk)
      requires Loadable(disk.files, storePath)
      ensures this.endpoint == endpoint && this.storePath == storePath && this.rank == rank && this.disk == disk
      ensures State() == Load(disk.files, storePath)
    {
      this.endpoint := endpoint;
      this.storePath := storePath;
      this.rank := rank;
      this.disk := disk;
      index := None;
      indexToChunk := [];
      new;
      if IsSet(storePath) && storePath.value in disk.files {
        LoadFromDisk();
      }
    }

    /** `_load_from_disk`: reads the index, and the chunk list only when its file exists. */
    method LoadFromDisk()
      requires Loadable(disk.files, storePath)
      modifies this
      ensures IsSet(storePath) && storePath.value in disk.files ==>
        && index == Some(disk.files[storePath.value].index)
        && var cp := ChunkPath(storePath).value;
           indexToChunk == if cp in disk.files then disk.files[cp].chunks else old(indexToChunk)
      ensures !(IsSet(storePath) && storePath.value in disk.files) ==> State() == old(State())
    {
      if !IsSet(storePath) || storePath.value !in disk.files {
        return;
      }
      index := Some(disk.files[storePath.value].index);
      var cp := ChunkPath(storePath);
      if cp.value in disk.files {
        indexToChunk := disk.files[cp.value].chunks;
      }
    }

    /**
     * `add_documents`: nothing happens for an empty batch or when every
     * embedding is empty; otherwise the valid embeddings are added to the
     * index (created with the first one's dimension), every chunk is appended
     * to `index_to_chunk`, and with a store path both are saved.
     */
    method AddDocuments(chunks: seq<Chunk>) returns (error: Option<string>)
      requires FitsIndex(index, ValidEmbeddings(endpoint.embedding, chunks))
      modifies this, disk
      ensures var valid := ValidEmbeddings(endpoint.embedding, chunks);
        if chunks == [] || valid == [] then
          State() == old(State()) && disk.files == old(disk.files) && error == None
        else
          && index == Some(AfterAdd(old(index), valid))
          && indexToChunk == old(indexToChunk) + chunks
          && if IsSet(storePath) then Saved(disk.files, error) == SaveEffect(old(disk.files), storePath, State())
             else disk.files == old(disk.files) && error == None
      ensures WellFormed(old(index), old(indexToChunk)) ==> WellFormed(index, indexToChunk)
    {
      error := None;
      if chunks == [] {
        return;
      }
      var valid := ValidEmbeddings(endpoint.embedding, chunks);
      if valid == [] {
        return;
      }
      if WellFormed(index, indexToChunk) {
        AddKeepsWellFormed(index, indexToChunk, endpoint.embedding, chunks);
      }
      var dimension := |valid[0]|;
      if index.None? {
        index := Some(FlatIndex(dimension, []));
      }
      index := Some(Add(index.value, valid));
      indexToChunk := indexToChunk + chunks;
      if IsSet(storePath) {
        error := SaveToDisk();
      }
    }

    /** `save_to_disk`. */
    method SaveToDisk() returns (error: Option<string>)
      modifies disk
      ensures Saved(disk.files, error) == SaveEffect(old(disk.files), storePath, State())
    {
      if !IsSet(storePath) {
        return Some(NoStorePathForSave);
      }
      if index.None? {
        return None;
      }
      disk.files := disk.files[storePath.value := IndexFile(index.value)];
      var cp := ChunkPath(storePath);
      if cp.Err? {
        return Some(cp.error);
      }
      disk.files := disk.files[cp.value := ChunkFile(indexToChunk)];
      return None;
    }

    /**
     * `similarity_search`: with a well-formed store, a search FAISS accepts
     * and an exact ranking it returns `min(k, ntotal)` entries of
     * `index_to_chunk`; [] with no index or an empty query embedding; an
     * `AssertionError` when no neighbours are asked for or the query is of
     * another width than the index.
     */
    method SimilaritySearch(query: string, k: nat) returns (r: Result<seq<Chunk>, string>)
      ensures r == Search(index, indexToChunk, endpoint.embedding, rank, query, k)
      ensures index.None? || endpoint.embedding(query) == [] ==> r == Ok([])
      ensures WellFormed(index, indexToChunk) && index.Some? && endpoint.embedding(query) != [] ==>
        var ntotal := |index.value.vectors|;
        var n := if k <= ntotal then k else ntotal;
        var ids := rank(index.value, endpoint.embedding(query), n);
        && (!SearchAccepts(index.value, endpoint.embedding(query), n) ==> r == Err(SearchAssertion))
        && (SearchAccepts(index.value, endpoint.embedding(query), n) && IsRanking(ids, ntotal, n) ==>
              r.Ok? && |r.value| == n && forall j :: 0 <= j < n ==> r.value[j] == indexToChunk[ids[j]])
    {
      if index.None? {
        return Ok([]);
      }
      var q := endpoint.embedding(query);
      if q == [] {
        return Ok([]);
      }
      var ntotal := |index.value.vectors|;
      var n := if k <= ntotal then k else ntotal;
      if !SearchAccepts(index.value, q, n) {
        return Err(SearchAssertion);
      }
      var ids := rank(index.value, q, n);
      r := Gather(indexToChunk, ids);
      if WellFormed(index, indexToChunk) && IsRanking(ids, ntotal, n) {
        SearchResults(index.value, indexToChunk, endpoint.embedding, rank, query, k);
      }
    }
  }
}
