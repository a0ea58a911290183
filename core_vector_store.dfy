/**
 * The in-memory FAISS vector store (core/nexusmind/storage/faiss_vector_store.py):
 * the same bookkeeping as the persisted copy, without a store path.
 */
module CoreVectorStore {
  import opened Records
  import opened Endpoint
  import opened VectorIndex

  class FaissVectorStore {
    const endpoint: LLMEndpoint
    const rank: Ranker
    var index: Option<FlatIndex>
    var indexToChunk: seq<Chunk>

    /** `__init__`: no index and no chunks. */
    constructor(endpoint: LLMEndpoint, rank: Ranker)
      ensures this.endpoint == endpoint && this.rank == rank
      ensures index == None && indexToChunk == []
      ensures WellFormed(index, indexToChunk)
    {
      this.endpoint := endpoint;
      this.rank := rank;
      index := None;
      indexToChunk := [];
    }

    /**
     * `add_documents`: nothing happens for an empty batch or when every
     * embedding is empty; otherwise the valid embeddings are added to the
     * index (created with the first one's dimension) and every chunk is
     * appended to `index_to_chunk`.
     */
    method AddDocuments(chunks: seq<Chunk>)
      requires FitsIndex(index, ValidEmbeddings(endpoint.embedding, chunks))
      modifies this
      ensures var valid := ValidEmbeddings(endpoint.embedding, chunks);
        if chunks == [] || valid == [] then
          index == old(index) && indexToChunk == old(indexToChunk)
        else
          index == Some(AfterAdd(old(index), valid)) && indexToChunk == old(indexToChunk) + chunks
      ensures WellFormed(old(index), old(indexToChunk)) ==> WellFormed(index, indexToChunk)
    {
      if chunks == [] {
        return;
      }
      var valid := ValidEmbeddings(endpoint.embedding, chunks);
      if valid == [] {
        return;
      }
      if WellFormed(index, indexToChunk) {
        AddKeepsWellFormed(index, indexToChunk, endpoint.embedding, chunks);
      }
      var dimension := |valid[0]|;
      if index.None? {
        index := Some(FlatIndex(dimension, []));
      }
      index := Some(Add(index.value, valid));
      indexToChunk := indexToChunk + chunks;
    }

    /**
     * `similarity_search`: [] on a fresh store or an empty query embedding;
     * an `AssertionError` when FAISS refuses the search (no neighbours asked
     * for, or a query of another width); with a well-formed store and an
     * exact ranking, `min(k, ntotal)` entries of `index_to_chunk` at the
     * reported positions.
     */
    method SimilaritySearch(query: string, k: nat) returns (r: Result<seq<Chunk>, string>)
      ensures r == Search(index, indexToChunk, endpoint.embedding, rank, query, k)
      ensures index.None? || endpoint.embedding(query) == [] ==> r == Ok([])
      ensures WellFormed(index, indexToChunk) && index.Some? && endpoint.embedding(query) != [] ==>
        var ntotal := |index.value.vectors|;
        var n := if k <= ntotal then k else ntotal;
        var ids := rank(index.value, endpoint.embedding(query), n);
        && (!SearchAccepts(index.value, endpoint.embedding(query), n) ==> r == Err(SearchAssertion))
        && (SearchAccepts(index.value, endpoint.embedding(query), n) && IsRanking(ids, ntotal, n) ==>
              r.Ok? && |r.value| == n && forall j :: 0 <= j < n ==> r.value[j] == indexToChunk[ids[j]])
    {
      if index.None? {
        return Ok([]);
      }
      var q := endpoint.embedding(query);
      if q == [] {
        return Ok([]);
      }
      var ntotal := |index.value.vectors|;
      var n := if k <= ntotal then k else ntotal;
      if !SearchAccepts(index.value, q, n) {
        return Err(SearchAssertion);
      }
      var ids := rank(index.value, q, n);
      r := Gather(indexToChunk, ids);
      if WellFormed(index, indexToChunk) && IsRanking(ids, ntotal, n) {
        SearchResults(index.value, indexToChunk, endpoint.embedding, rank, query, k);
      }
    }
  }
}
