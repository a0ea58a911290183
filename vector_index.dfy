/**
 * What both copies of `FaissVectorStore` share: the flat L2 index as a list
 * of vectors of one dimension, the filtering of empty embeddings, and the
 * translation of the index's search hits back to chunks.
 */
module VectorIndex {
  import opened Seqs
  import opened Records
  import opened Endpoint

  /** A `faiss.IndexFlatL2`: its dimension and the vectors added so far (`ntotal` is their number). */
  datatype FlatIndex = FlatIndex(dimension: nat, vectors: seq<Vector>)

  /** The positions of the nearest vectors that `index.search(query, k)` reports, nearest first. */
  type Ranker = (FlatIndex, Vector, nat) -> seq<int>

  /** What an exact flat index returns for `k <= ntotal`: `k` distinct positions below `ntotal`. */
  predicate IsRanking(ids: seq<int>, ntotal: nat, k: nat) {
    && |ids| == k
    && (forall j :: 0 <= j < |ids| ==> 0 <= ids[j] < ntotal)
    && (forall j, l :: 0 <= j < l < |ids| ==> ids[j] != ids[l])
  }

  function IsNonEmpty(v: Vector): bool { v != [] }

  /** `[get_embedding(chunk.content) for chunk in chunks]`. */
  function Embeddings(embed: string -> Vector, chunks: seq<Chunk>): (r: seq<Vector>)
    ensures |r| == |chunks|
    ensures forall i :: 0 <= i < |chunks| ==> r[i] == embed(chunks[i].content)
  {
    seq(|chunks|, i requires 0 <= i < |chunks| => embed(chunks[i].content))
  }

  /** `[emb for emb in embeddings if emb]`. */
  function ValidEmbeddings(embed: string -> Vector, chunks: seq<Chunk>): seq<Vector> {
    Filter(Embeddings(embed, chunks), IsNonEmpty)
  }

  /** The valid embeddings are exactly the non-empty ones, in chunk order, never more than the chunks. */
  lemma ValidEmbeddingsShape(embed: string -> Vector, chunks: seq<Chunk>)
    ensures var valid := ValidEmbeddings(embed, chunks); var from := Positions(Embeddings(embed, chunks), IsNonEmpty);
      && |valid| == |from| <= |chunks|
      && forall j :: 0 <= j < |valid| ==> valid[j] != [] && valid[j] == embed(chunks[from[j]].content)
  {
    FilterAtPositions(Embeddings(embed, chunks), IsNonEmpty);
  }

  /** The valid embeddings are all of the embeddings exactly when none is empty. */
  lemma AllValid(embed: string -> Vector, chunks: seq<Chunk>)
    ensures ValidEmbeddings(embed, chunks) == Embeddings(embed, chunks)
      <==> forall i :: 0 <= i < |chunks| ==> embed(chunks[i].content) != []
  {
    FilterAll(Embeddings(embed, chunks), IsNonEmpty);
  }

  /** Every vector has the given dimension (FAISS requires it of `index.add`). */
  predicate HasDimension(vectors: seq<Vector>, dimension: nat) {
    forall i :: 0 <= i < |vectors| ==> |vectors[i]| == dimension
  }

  /** The index after `index.add(vectors)`. */
  function Add(index: FlatIndex, vectors: seq<Vector>): (r: FlatIndex)
    ensures r.dimension == index.dimension
    ensures |r.vectors| == |index.vectors| + |vectors| && r.vectors[..|index.vectors|] == index.vectors
    ensures HasDimension(index.vectors, index.dimension) && HasDimension(vectors, index.dimension)
      ==> HasDimension(r.vectors, r.dimension)
  {
    var r := FlatIndex(index.dimension, index.vectors + vectors);
    assert r.vectors[..|index.vectors|] == index.vectors;
    r
  }

  /** `l[i]` on a Python list: negative positions count from the end; others out of range raise `IndexError`. */
  function ListAt(l: seq<Chunk>, i: int): (r: Result<Chunk, string>)
    ensures 0 <= i < |l| ==> r == Ok(l[i])
    ensures (i >= |l| || i < -|l|) <==> r.Err?
  {
    if 0 <= i < |l| then Ok(l[i])
    else if -|l| <= i < 0 then Ok(l[|l| + i])
    else Err("list index out of range")
  }

  /** `[index_to_chunk[i] for i in ids]`; the first bad position raises. */
  function Gather(l: seq<Chunk>, ids: seq<int>): (r: Result<seq<Chunk>, string>)
    ensures r.Ok? <==> forall j :: 0 <= j < |ids| ==> ListAt(l, ids[j]).Ok?
    ensures r.Ok? ==> |r.value| == |ids| && forall j :: 0 <= j < |ids| ==> Ok(r.value[j]) == ListAt(l, ids[j])
    decreases |ids|
  {
    if ids == [] then Ok([])
    else
      match ListAt(l, ids[0])
      case Err(e) => Err(e)
      case Ok(c) =>
        match Gather(l, ids[1..])
        case Err(e) => Err(e)
        case Ok(rest) =>
          assert forall j :: 1 <= j < |ids| ==> ids[1..][j - 1] == ids[j];
          Ok([c] + rest)
  }

  /** What `faiss.Index.search` raises when it is asked for no neighbours or given a query of another width. */
  const SearchAssertion := "AssertionError"

  /** `index.search(q, n)` accepts the query: `n > 0` and the query is as wide as the index. */
  predicate SearchAccepts(index: FlatIndex, q: Vector, n: nat) {
    n > 0 && |q| == index.dimension
  }

  /**
   * `similarity_search(query, k)`: [] when there is no index or the query
   * embedding is empty; an `AssertionError` when `min(k, ntotal)` is 0 or
   * the query's width is not the index's dimension; otherwise the chunks at
   * the positions the index reports for `min(k, ntotal)` neighbours.
   */
  function Search(index: Option<FlatIndex>, indexToChunk: seq<Chunk>, embed: string -> Vector, rank: Ranker,
                  query: string, k: nat): Result<seq<Chunk>, string>
  {
    if index.None? then Ok([])
    else
      var q := embed(query);
      if q == [] then Ok([])
      else
        var n := if k <= |index.value.vectors| then k else |index.value.vectors|;
        if !SearchAccepts(index.value, q, n) then Err(SearchAssertion)
        else Gather(indexToChunk, rank(index.value, q, n))
  }

  /**
   * FAISS's own checks: with an index and a non-empty query embedding, search
   * raises when it would ask for no neighbours or the query is of another
   * width than the index, and otherwise gathers the reported positions.
   */
  lemma SearchRejects(index: FlatIndex, indexToChunk: seq<Chunk>, embed: string -> Vector, rank: Ranker, query: string, k: nat)
    requires embed(query) != []
    ensures var n := if k <= |index.vectors| then k else |index.vectors|;
      var r := Search(Some(index), indexToChunk, embed, rank, query, k);
      && (!SearchAccepts(index, embed(query), n) ==> r == Err(SearchAssertion))
      && (SearchAccepts(index, embed(query), n) ==> r == Gather(indexToChunk, rank(index, embed(query), n)))
  {
  }

  /**
   * With at least as many chunks as vectors, a search FAISS accepts and an
   * exact ranking, search succeeds with `min(k, ntotal)` chunks, each `index_to_chunk[i]` for a
   * distinct reported position `i < ntotal`.
   */
  lemma SearchResults(index: FlatIndex, indexToChunk: seq<Chunk>, embed: string -> Vector, rank: Ranker, query: string, k: nat)
    requires |indexToChunk| >= |index.vectors|
    requires embed(query) != []
    requires var n := if k <= |index.vectors| then k else |index.vectors|;
      SearchAccepts(index, embed(query), n) && IsRanking(rank(index, embed(query), n), |index.vectors|, n)
    ensures var r := Search(Some(index), indexToChunk, embed, rank, query, k);
      var n := if k <= |index.vectors| then k else |index.vectors|;
      var ids := rank(index, embed(query), n);
      && r.Ok?
      && |r.value| == n
      && forall j :: 0 <= j < n ==> r.value[j] == indexToChunk[ids[j]]
  {
    var n := if k <= |index.vectors| then k else |index.vectors|;
    var ids := rank(index, embed(query), n);
    assert forall j :: 0 <= j < |ids| ==> ListAt(indexToChunk, ids[j]) == Ok(indexToChunk[ids[j]]);
  }

  /** A store without an index, or a query whose embedding failed, finds nothing. */
  lemma SearchNothing(index: Option<FlatIndex>, indexToChunk: seq<Chunk>, embed: string -> Vector, rank: Ranker, query: string, k: nat)
    requires index.None? || embed(query) == []
    ensures Search(index, indexToChunk, embed, rank, query, k) == Ok([])
  {
  }

  /**
   * When a chunk list is longer than the vector list (as after loading an
   * index without its chunk file, `index_to_chunk == []`), a hit raises `IndexError`.
   */
  lemma SearchWithoutChunks(index: FlatIndex, embed: string -> Vector, rank: Ranker, query: string, k: nat)
    requires embed(query) != [] && k > 0 && |index.vectors| > 0 && |embed(query)| == index.dimension
    requires var n := if k <= |index.vectors| then k else |index.vectors|;
      IsRanking(rank(index, embed(query), n), |index.vectors|, n)
    ensures Search(Some(index), [], embed, rank, query, k).Err?
  {
    var n := if k <= |index.vectors| then k else |index.vectors|;
    assert ListAt([], rank(index, embed(query), n)[0]).Err?;
  }

  /**
   * The index positions and the chunk list drift apart: after adding a chunk
   * whose embedding is empty followed by one whose embedding is not, vector 0
   * belongs to the second chunk but position 0 of the chunk list holds the
   * first, so a hit on vector 0 returns the wrong chunk.
   */
  lemma PositionsDrift(embed: string -> Vector, a: Chunk, b: Chunk)
    requires embed(a.content) == [] && embed(b.content) != []
    ensures ValidEmbeddings(embed, [a, b]) == [embed(b.content)]
    ensures ListAt([a, b], 0) == Ok(a)
  {
    var e := Embeddings(embed, [a, b]);
    assert e == [embed(a.content), embed(b.content)];
    assert e[..1] == [embed(a.content)];
    assert e[..1][..0] == [];
    assert Filter(e[..1][..0], IsNonEmpty) == [];
    assert Filter(e[..1], IsNonEmpty) == [];
    assert Filter(e, IsNonEmpty) == [embed(b.content)];
  }

  /**
   * The store's invariant: an index holds vectors of its own dimension and
   * there are at least as many chunks as vectors; with no index there are no chunks.
   */
  predicate WellFormed(index: Option<FlatIndex>, indexToChunk: seq<Chunk>) {
    match index
    case None => indexToChunk == []
    case Some(ix) => HasDimension(ix.vectors, ix.dimension) && |indexToChunk| >= |ix.vectors|
  }

  /** `vectors` all have the dimension of the index they go into (the first one's length when there is no index yet), as `faiss.Index.add` demands. */
  predicate FitsIndex(index: Option<FlatIndex>, vectors: seq<Vector>) {
    vectors != [] ==> HasDimension(vectors, if index.Some? then index.value.dimension else |vectors[0]|)
  }

  /**
   * The index after a successful `add_documents`: the existing one, or a new
   * one whose dimension is that of the first valid embedding, with the valid
   * embeddings appended.
   */
  function AfterAdd(index: Option<FlatIndex>, valid: seq<Vector>): (r: FlatIndex)
    requires valid != []
    ensures r.dimension == if index.Some? then index.value.dimension else |valid[0]|
    ensures r.vectors == (if index.Some? then index.value.vectors else []) + valid
  {
    var base := if index.Some? then index.value else FlatIndex(|valid[0]|, []);
    Add(base, valid)
  }

  /**
   * A successful add keeps the invariant: the vector count grows by the
   * number of valid embeddings, the chunk list by all chunks, and there are
   * never more valid embeddings than chunks.
   */
  lemma AddKeepsWellFormed(index: Option<FlatIndex>, indexToChunk: seq<Chunk>, embed: string -> Vector, chunks: seq<Chunk>)
    requires WellFormed(index, indexToChunk)
    requires ValidEmbeddings(embed, chunks) != []
    requires HasDimension(ValidEmbeddings(embed, chunks),
      if index.Some? then index.value.dimension else |ValidEmbeddings(embed, chunks)[0]|)
    ensures WellFormed(Some(AfterAdd(index, ValidEmbeddings(embed, chunks))), indexToChunk + chunks)
  {
    var valid := ValidEmbeddings(embed, chunks);
    assert |valid| <= |chunks| by { ValidEmbeddingsShape(embed, chunks); }
    var base := if index.Some? then index.value else FlatIndex(|valid[0]|, []);
    assert HasDimension(base.vectors, base.dimension);
    assert AfterAdd(index, valid) == Add(base, valid);
  }

  /** The vector and chunk counts stay equal after an add exactly when every embedding of the batch is non-empty. */
  lemma AddKeepsCountsEqual(index: Option<FlatIndex>, indexToChunk: seq<Chunk>, embed: string -> Vector, chunks: seq<Chunk>)
    requires index.Some? ==> |indexToChunk| == |index.value.vectors|
    requires index.None? ==> indexToChunk == []
    requires ValidEmbeddings(embed, chunks) != []
    ensures |AfterAdd(index, ValidEmbeddings(embed, chunks)).vectors| == |indexToChunk + chunks|
      <==> forall i :: 0 <= i < |chunks| ==> embed(chunks[i].content) != []
  {
    ValidEmbeddingsShape(embed, chunks);
    AllValid(embed, chunks);
    var e := Embeddings(embed, chunks);
    if |ValidEmbeddings(embed, chunks)| == |chunks| {
      var from := Positions(e, IsNonEmpty);
      forall i | 0 <= i < |chunks| ensures embed(chunks[i].content) != [] {
        PositionsAreAll(e, IsNonEmpty, i);
      }
    }
  }
}
