# NexusMind retrieval core in Dafny

This project models the retrieval core of NexusMind, a retrieval-augmented generation (RAG) service written in Python, and proves properties of the model. The core is:

- the ingestion path:
  - the processor registry, which dispatches on a file's extension;
  - the line-by-line text processor;
  - the file parser, with its FAST / HI_RES / AUTO chunking strategies and the HI_RES post-processing loop;
  - the `ProcessedDocument` metadata stamping;
- both copies of the FAISS-backed vector store:
  - the persisted one (under `src/`);
  - the in-memory one (under `core/`);
- both RAG pipelines:
  - vector-store retrieval with a fixed prompt frame;
  - keyword-overlap retrieval with a stable top-3 sort;
- the `Brain` aggregate and its keyed snapshot store;
- the request rules of the HTTP service:
  - the API-key check;
  - the upload task-status lifecycle;
  - get-or-create of a brain;
- the migration checker, which requires every enum created in `upgrade()` to be dropped in `downgrade()`.

Each source file is one Dafny module. Classes whose fields the Python code updates in place are `class`es with `modifies` frames:

- `ProcessorRegistry`;
- both `FaissVectorStore`s;
- `Brain`;
- `NexusRAG`;
- the application state of `main.py`, and its `TASK_STATUSES` table;
- `FileParser`;
- `ProcessedDocument`;
- the `Disk`, a map from path to artifact that stands for the file system.

Loops become `while` loops with invariants, each proved against a specification function:

- the text processor's line loop;
- the HI_RES post-processing loop;
- the metadata stamping loop;
- keyword scoring;
- the migration checker's file, enum and line loops.

Pure code is functions and lemmas. External collaborators are parameters:

- the embedding model and the LLM are oracles (`string -> seq<real>`, `string -> string`);
- the langchain splitter is an oracle from its configuration and text to a sequence of strings;
- FAISS nearest-neighbour search is a ranking oracle, constrained to return distinct positions below `ntotal`;
- fresh UUIDs are a supply function.

Python `str` operations (`strip`, `lower`, `split`, `splitlines`, `find`, `join`) and the path rules (`os.path.splitext`, `PurePosixPath.suffix`/`with_suffix`) are defined once, in `Text` and `Paths`.

## Model

| member | source | states |
|---|---|---|
| Registry.NormalizeExtension | core/nexusmind/processor/registry.py:19-21 | the key always starts with '.'; it is the lower-cased extension, prefixed with '.' exactly when that does not already start with '.' |
| Registry.Lookup | core/nexusmind/processor/registry.py:28-34 | succeeds iff the lower-cased `splitext` extension is a key, returns that key's processor, and otherwise errs with the message naming the extension |
| Registry.ProcessorRegistry.constructor | core/nexusmind/processor/registry.py:12-13 | a new registry is empty |
| Registry.ProcessorRegistry.RegisterProcessor | core/nexusmind/processor/registry.py:15-22 | the map gains (or overwrites) exactly the normalised key, and every key stays normalised |
| Registry.ProcessorRegistry.GetProcessor | core/nexusmind/processor/registry.py:24-34 | returns `Lookup` of the current map and changes nothing |
| Registry.LowerKey | core/nexusmind/processor/registry.py:19-22 | a stored key is already lower-case, so keys stay normalised |
| Registry.NormaliseInsensitive | core/nexusmind/processor/registry.py:19-21 | "pdf", ".pdf" and "PDF" all normalise to one key |
| Registry.RegisterThenLookup | core/nexusmind/processor/registry.py:22-31 | after registering, any path whose lower-cased extension is the normalised key resolves to the processor |
| Registry.RegisterKeepsOthers | core/nexusmind/processor/registry.py:22 | registering leaves every other extension's lookup unchanged |
| Registry.NoExtensionFails | core/nexusmind/processor/registry.py:20-33 | with normalised keys, a path without an extension always fails, naming "" |
| Registry.RegistryScenario | tests/processor/test_registry.py:15-32 | ".txt" and "PDF" registered: "document.txt" and "report.PDF" resolve; "archive.zip" fails naming '.zip' |
| Registry.ScenarioKeys | core/nexusmind/processor/registry.py:19-21 | ".txt" normalises to ".txt" and "PDF" to ".pdf" |
| Registry.ScenarioExtensions | core/nexusmind/processor/registry.py:28-29 | the lower-cased extensions of "document.txt" and "report.PDF" are ".txt" and ".pdf" |
| Registry.ZipExtension | core/nexusmind/processor/registry.py:28-33 | the lower-cased extension of "archive.zip" is ".zip", and the error for it reads "No processor registered for file type '.zip'" |
| Registry.LowerExtensionOf | core/nexusmind/processor/registry.py:28-29 | the lower-cased extension of a slash-free stem not starting with "." followed by "." and a dot- and slash-free word is "." and the word lower-cased |
| Paths.Extension | core/nexusmind/processor/registry.py:28 | `splitext`: the extension is empty or starts with '.', ends the path, and holds no further '.' or '/' |
| Paths.ExtensionOf | core/nexusmind/processor/registry.py:28 | `stem.word` has extension ".word" when the stem is not all dots |
| Paths.NoDotNoExtension | core/nexusmind/processor/registry.py:28 | a path without a '.' has no extension |
| Paths.Suffix | src/nexusmind/storage/faiss_vector_store.py:34-38 | a suffix is empty, or starts with '.', has at least two characters, ends the name and is shorter than it |
| Paths.WithSuffix | src/nexusmind/storage/faiss_vector_store.py:34-38 | errs iff the name is empty; otherwise keeps everything before the old suffix and ends with the new one |
| Paths.IndexChunkPath | src/nexusmind/storage/faiss_vector_store.py:34-38 | the chunk file of "storage/vs_<id>.index" is "storage/vs_<id>.json" |
| TxtProcessor.Process | core/nexusmind/processor/implementations/simple_txt_processor.py:18-40 | the chunks are the selection, over `splitlines()` of the content, of the non-blank lines, each made into its chunk |
| TxtProcessor.ChunkLines | core/nexusmind/processor/implementations/simple_txt_processor.py:27-40 | the loop returns that selection over all lines |
| TxtProcessor.KeepLine | core/nexusmind/processor/implementations/simple_txt_processor.py:29-38 | a non-blank line appends its chunk, with line number i+1 and the next id; a blank line appends nothing |
| TxtProcessor.ChunkLinesStep | core/nexusmind/processor/implementations/simple_txt_processor.py:28-38 | one turn extends the selection by the line's chunk iff the line is non-blank |
| TxtProcessor.StripNonEmpty | core/nexusmind/processor/implementations/simple_txt_processor.py:29 | `line.strip()` is non-empty iff the line has a non-whitespace character |
| TxtProcessor.ChunksAreKeptLines | core/nexusmind/processor/implementations/simple_txt_processor.py:28-38 | one chunk per non-blank line, in order: content verbatim, file id, file name, 1-based line number within the line count, strictly increasing |
| TxtProcessor.EveryNonBlankLineKept | core/nexusmind/processor/implementations/simple_txt_processor.py:29-38 | every non-blank line has its chunk in the output |
| TxtProcessor.NonBlankAt | core/nexusmind/processor/implementations/simple_txt_processor.py:29 | a line with a non-whitespace character is kept; the empty line is not |
| TxtProcessor.KeptOfFour | tests/processor/test_simple_txt_processor.py:13-31 | of four lines with only the third blank, positions 0, 1 and 3 are kept |
| TxtProcessor.SplitWithBlank | core/nexusmind/processor/implementations/simple_txt_processor.py:25 | "a\nb\n\nd" splits into four lines, the third empty |
| TxtProcessor.FourLines | tests/processor/test_simple_txt_processor.py:13-31 | the sample content splits into four lines |
| TxtProcessor.SampleLines | tests/processor/test_simple_txt_processor.py:13-31 | the sample lines hold no line boundary |
| TxtProcessor.ThreeOfFourLines | tests/processor/test_simple_txt_processor.py:13-31 | the sample yields chunks from lines 1, 2 and 4 |
| Text.StripLeft | core/nexusmind/processor/implementations/simple_txt_processor.py:29 | removes exactly the leading whitespace: a suffix of the input, starting with a non-space, preceded only by spaces |
| Text.StripRight | core/nexusmind/processor/implementations/simple_txt_processor.py:29 | removes exactly the trailing whitespace: a prefix, ending with a non-space, followed only by spaces |
| Text.Strip | core/nexusmind/processor/implementations/simple_txt_processor.py:29 | `str.strip()`: no whitespace at either end, and empty iff the input is all whitespace |
| Text.StripInfixOf | core/nexusmind/processor/implementations/simple_txt_processor.py:29 | the stripped string occurs in the original |
| Text.StripParts | core/nexusmind/processor/implementations/simple_txt_processor.py:29 | the two-sided strip is stripped, an infix, and empty iff all whitespace |
| Text.StripInfix | core/nexusmind/processor/implementations/simple_txt_processor.py:29 | a prefix of a suffix occurs in the string |
| Text.StripBlank | core/nexusmind/processor/implementations/simple_txt_processor.py:29 | an empty strip means every character is whitespace |
| Text.StripIdentity | core/file_processor/parsers.py:160 | stripping a string with no whitespace at either end is the identity |
| Text.LowerChar | core/nexusmind/processor/registry.py:19 | maps 'A'..'Z' into 'a'..'z' and leaves every other character alone |
| Text.Lower | core/nexusmind/processor/registry.py:19 | `str.lower()`, ASCII letters only: same length, each character lower-cased |
| Text.ContainsIff | scripts/check_migrations.py:62 | substring containment holds iff some occurrence exists |
| Text.OccursContains | scripts/check_migrations.py:62 | an occurrence at any index gives containment |
| Text.ConcatEnds | src/nexusmind/rag/nexus_rag.py:68-73 | a concatenation starts with its first part and ends with its last |
| Text.OccursInMiddle | src/nexusmind/rag/nexus_rag.py:68-73 | an occurrence in a middle part is one in the whole, shifted |
| Text.OccursInSuffix | src/nexusmind/rag/nexus_rag.py:68-73 | an occurrence in the last part is one in the whole, shifted |
| Text.OccursInPrefix | src/nexusmind/rag/nexus_rag.py:68-73 | an occurrence in the first part is one in the whole, at the same index |
| Text.Find | scripts/check_migrations.py:25-31 | `str.find`: -1, or an index at or after the start where the pattern occurs |
| Text.FindFirst | scripts/check_migrations.py:25-31 | the index found is the first occurrence, and -1 means there is none |
| Text.LastIndexOf | core/nexusmind/processor/registry.py:28 | `str.rfind` of a character: its last index, or -1 |
| Text.BreakIndex | core/nexusmind/processor/implementations/simple_txt_processor.py:25 | the first line boundary, with none before it |
| Text.SplitLines | core/nexusmind/processor/implementations/simple_txt_processor.py:25 | `str.splitlines()`: no resulting line holds a line boundary |
| Text.BreakIndexAt | core/nexusmind/processor/implementations/simple_txt_processor.py:25 | a boundary-free line followed by more text breaks where it ends |
| Text.Join | src/nexusmind/rag/nexus_rag.py:58 | `sep.join`: a single element is itself, more are the head, the separator and the join of the rest |
| Text.SplitLinesOfJoin | core/nexusmind/processor/implementations/simple_txt_processor.py:25 | `splitlines` undoes joining with "\n" when no line holds a boundary and the last is non-empty |
| Text.SplitLinesCons | core/nexusmind/processor/implementations/simple_txt_processor.py:25 | a line followed by "\n" is split off the front |
| Text.JoinContains | core/nexusmind/rag/nexus_rag.py:50 | every element of a join occurs in it |
| Text.JoinOccurs | core/nexusmind/rag/nexus_rag.py:50 | gives the index at which each element occurs in the join |
| Text.JoinEmpty | src/nexusmind/rag/nexus_rag.py:58-63 | with a non-empty separator, a join is empty iff there are no elements or a single empty one |
| Text.WordLength | core/nexusmind/rag/nexus_rag.py:28 | the longest whitespace-free prefix, ended by whitespace or the end |
| Text.Words | core/nexusmind/rag/nexus_rag.py:28 | `str.split()`: every word is non-empty and holds no whitespace |
| Text.Keywords | core/nexusmind/rag/nexus_rag.py:28-33 | `set(s.lower().split())`: a set of non-empty words |
| Models.EnumValuesDistinct | core/file_processor/models.py:6-16 | distinct enum members have distinct `.value` strings |
| Models.DefaultSettings | core/file_processor/models.py:19-28 | the defaults: size 1000, overlap 200, separator "\n", UNSTRUCTURED, AUTO, no table check, no instruction, "gpt-4" |
| Models.StampMetadata | core/file_processor/models.py:41-46 | the keys are the chunk's own, the three stamped ones and the document's; document entries win; `chunk_index`, `original_filename` and `file_extension` hold the stamped values unless the document metadata overrides them; other chunk entries survive |
| Models.Stamped | core/file_processor/models.py:38-46 | same count, order and content; the i-th chunk (0-based) is stamped with index i+1 |
| Models.StampIdempotent | core/file_processor/models.py:41-46 | stamping twice with the same values gives the same metadata as stamping once |
| Models.ProcessedDocument.constructor | core/file_processor/models.py:30-46 | keeps the document fields, and the loop leaves the chunks equal to `Stamped` of the given chunks |
| Parsers.TruncDiv10 | core/file_processor/parsers.py:138 | `int()` truncation toward zero of a tenth, for either sign |
| Parsers.HiResOverlap | core/file_processor/parsers.py:137-142 | the overlap is the smaller of twice the configured overlap and int(0.3 * size), and is one of them |
| Parsers.OverlapCapped | core/file_processor/parsers.py:136-142 | for a non-negative size the overlap is at most 30% of it |
| Parsers.OverlapExamples | core/file_processor/parsers.py:137-142 | size 100 with overlap 30 gives 30; the defaults give 300 |
| Parsers.StripKeepsFront | core/file_processor/parsers.py:164-168 | stripping a string without leading whitespace keeps a prefix of it |
| Parsers.TrimLeading | core/file_processor/parsers.py:163-164 | the leading-punctuation loop ends with no punctuation at the front, and a stripped result unless nothing was trimmed |
| Parsers.TrimTrailing | core/file_processor/parsers.py:167-168 | the trailing-punctuation loop ends with no punctuation at the end, and never lengthens |
| Parsers.TrimTrailingPrefix | core/file_processor/parsers.py:167-168 | on a stripped string, trailing trimming only cuts from the end and leaves it stripped |
| Parsers.CleanChunk | core/file_processor/parsers.py:160-172 | a cleaned piece is stripped and does not start with punctuation; a non-empty piece that is not last ends with "。"; the last piece does not end with punctuation |
| Parsers.TrimmedShape | core/file_processor/parsers.py:160-168 | after both trims the piece is stripped, with punctuation at neither end |
| Parsers.AppendStop | core/file_processor/parsers.py:171-172 | appending "。" keeps a cleaned piece clean and makes it end with "。" |
| Parsers.Cleaned | core/file_processor/parsers.py:158-172 | each raw piece cleaned, knowing whether it is the last |
| Text.AfterLast | core/file_processor/parsers.py:177 | what follows the last separator (`split(sep)[-1]`, `PurePosixPath.name`) ends the string and holds no separator |
| Parsers.Dedup | core/file_processor/parsers.py:175-178 | the duplicate check never lengthens the chunk |
| Parsers.DedupNoop | core/file_processor/parsers.py:171-178 | after a chunk ending in "。" the tail is empty, so a stripped chunk passes unchanged |
| Parsers.HiResShape | core/file_processor/parsers.py:157-183 | HI_RES output: at most as many documents as raw pieces, in raw order; each the cleaned piece, non-empty and stripped, not starting with punctuation; ending with "。" unless from the last piece, which does not end with punctuation |
| Parsers.CleanUpStep | core/file_processor/parsers.py:158-181 | one loop turn appends the cleaned piece iff it is non-empty, and keeps "the last document ends with 。" while pieces remain |
| Parsers.FileParser.constructor | core/file_processor/parsers.py:16-30 | the given settings, or the defaults for `None` |
| Parsers.FileParser.FastConfig | core/file_processor/parsers.py:26-30 | the configured size and overlap, with the configured separator first |
| Parsers.FileParser.HiResConfig | core/file_processor/parsers.py:113-151 | the configured size, the capped overlap and the HI_RES separators |
| Parsers.FileParser.FastChunking | core/file_processor/parsers.py:100-103 | one document per split string, unchanged and in order |
| Parsers.FileParser.HiResChunking | core/file_processor/parsers.py:105-183 | the HI_RES documents of the split of the content |
| Parsers.FileParser.CleanUp | core/file_processor/parsers.py:157-183 | the post-processing loop returns the HI_RES documents of the pieces |
| Parsers.FileParser.AppendChunk | core/file_processor/parsers.py:174-181 | after a document ending with "。" a stripped chunk is appended unchanged iff it is non-empty |
| Parsers.FileParser.Deduplicate | core/file_processor/parsers.py:174-178 | computes `Dedup`, which is the identity after a chunk ending with "。" |
| Parsers.FileParser.CleanOne | core/file_processor/parsers.py:160-172 | the strip-and-trim loops and the "。" append compute `CleanChunk` |
| Parsers.FileParser.AutoChunking | core/file_processor/parsers.py:185-190 | above 100000 characters FAST, otherwise HI_RES |
| Parsers.FileParser.ChunkContent | core/file_processor/parsers.py:64-70 | FAST and HI_RES by name, AUTO otherwise |
| Parsers.FileParser.AutoBoundary | core/file_processor/parsers.py:188-190 | exactly 100000 characters take HI_RES; 100001 take FAST |
| Parsers.FileParser.FileMetadata | core/file_processor/parsers.py:192-200 | exactly the five keys; the size and the two setting values as written |
| Parsers.FileParser.ParseFile | core/file_processor/parsers.py:39-78 | errs iff the path is not on disk, with the not-found message; otherwise a fresh document with the file metadata, the file name, the lower-cased suffix, and the strategy's documents stamped |
| VectorIndex.Embeddings | src/nexusmind/storage/faiss_vector_store.py:45-47 | one embedding per chunk, the embedding of that chunk's content |
| VectorIndex.ValidEmbeddings | src/nexusmind/storage/faiss_vector_store.py:50 | the non-empty embeddings of the chunks' contents, in chunk order (characterised by `ValidEmbeddingsShape` and `AllValid`) |
| VectorIndex.ValidEmbeddingsShape | src/nexusmind/storage/faiss_vector_store.py:50 | the valid embeddings are the non-empty embeddings in chunk order, at most one per chunk |
| VectorIndex.AllValid | src/nexusmind/storage/faiss_vector_store.py:50 | the filter keeps every embedding exactly when none is empty |
| VectorIndex.Add | src/nexusmind/storage/faiss_vector_store.py:66 | `index.add` keeps the dimension and the existing vectors and appends the new ones, all of the index's dimension |
| VectorIndex.ListAt | src/nexusmind/storage/faiss_vector_store.py:88 | list indexing: an in-range position gives its element; positions at or past the length, or before minus the length, raise |
| VectorIndex.Gather | src/nexusmind/storage/faiss_vector_store.py:88 | the comprehension succeeds iff every reported position indexes the chunk list, and then holds the chunk at each position in order |
| VectorIndex.Search | src/nexusmind/storage/faiss_vector_store.py:72-88 | `similarity_search` on the store's state: [] without an index or with an empty query embedding, FAISS's `AssertionError` when `min(k, ntotal)` is 0 or the query's width is not the dimension, otherwise the chunks at the reported positions (the lemmas below state each case) |
| VectorIndex.SearchRejects | src/nexusmind/storage/faiss_vector_store.py:80-88 | with a non-empty query embedding, `index.search` raises `AssertionError` unless `min(k, ntotal)` is positive and the query has the index's dimension, and otherwise the result is the gathered chunks of the ranking |
| VectorIndex.SearchResults | src/nexusmind/storage/faiss_vector_store.py:72-88 | with a positive `min(k, ntotal)`, a query of the index's dimension, enough chunks and an exact ranking, search returns `min(k, ntotal)` chunks, each the chunk at a distinct reported position |
| VectorIndex.SearchNothing | src/nexusmind/storage/faiss_vector_store.py:73-78 | no index, or an empty query embedding, gives [] |
| VectorIndex.SearchWithoutChunks | src/nexusmind/storage/faiss_vector_store.py:83-88 | an index whose chunk list is empty (a loaded index without its chunk file) raises on the first hit of a query of the index's dimension |
| VectorIndex.PositionsDrift | src/nexusmind/storage/faiss_vector_store.py:50-67 | a chunk with an empty embedding followed by one with a valid embedding: vector 0 belongs to the second chunk but position 0 of the chunk list holds the first |
| VectorIndex.AfterAdd | src/nexusmind/storage/faiss_vector_store.py:59-66 | the index after an add has the existing dimension, or the first valid embedding's length for a new index, and the old vectors followed by the valid ones |
| VectorIndex.AddKeepsWellFormed | src/nexusmind/storage/faiss_vector_store.py:59-67 | an add keeps every vector of the index's dimension and at least as many chunks as vectors |
| VectorIndex.AddKeepsCountsEqual | src/nexusmind/storage/faiss_vector_store.py:50-67 | vectors and chunks stay equal in number iff no embedding of the batch is empty |
| CoreVectorStore.FaissVectorStore.constructor | core/nexusmind/storage/faiss_vector_store.py:15-19 | keeps the endpoint; no index and no chunks, which is well formed |
| CoreVectorStore.FaissVectorStore.AddDocuments | core/nexusmind/storage/faiss_vector_store.py:21-40 | an empty batch, or one whose embeddings are all empty, changes nothing; otherwise the valid embeddings are added to the index (created with the first one's dimension) and every chunk is appended; the store invariant is kept |
| CoreVectorStore.FaissVectorStore.SimilaritySearch | core/nexusmind/storage/faiss_vector_store.py:42-58 | [] with no index or an empty query embedding; FAISS's `AssertionError` when `min(k, ntotal)` is 0 or the query's width is not the index's dimension; otherwise, on a well-formed store with an exact ranking, `min(k, ntotal)` chunks at distinct reported positions |
| SrcVectorStore.ChunkPath | src/nexusmind/storage/faiss_vector_store.py:34-38 | the store-path error when the path is unset; otherwise fails iff the path has an empty name, else the path with its suffix replaced by ".json" |
| SrcVectorStore.ChunkPathDiffers | src/nexusmind/storage/faiss_vector_store.py:34-38 | the chunk file is not the index file unless the store path already ends in ".json" |
| SrcVectorStore.SaveEffect | src/nexusmind/storage/faiss_vector_store.py:90-116 | `save_to_disk`'s effect on the files: the ValueError without a store path, nothing without an index, else the index file at the store path and then the chunk list at its .json sibling (a chunk-path error leaves the index written) |
| SrcVectorStore.Load | src/nexusmind/storage/faiss_vector_store.py:118-137 | the state a store is constructed with: the index at an existing store path and the chunk list at its .json sibling or [], and no index otherwise (`SaveThenLoad` proves it undoes `SaveEffect`) |
| SrcVectorStore.SaveThenLoad | src/nexusmind/storage/faiss_vector_store.py:90-137 | saving an index then loading from the same store path gives back the index and the chunk list |
| SrcVectorStore.SaveKeepsOthers | src/nexusmind/storage/faiss_vector_store.py:90-116 | saving touches no file other than the store path and the chunk path |
| SrcVectorStore.SaveErrors | src/nexusmind/storage/faiss_vector_store.py:90-116 | the store-path error iff the path is unset; no index writes nothing; any other error comes from a path with an empty name |
| SrcVectorStore.FaissVectorStore.constructor | src/nexusmind/storage/faiss_vector_store.py:24-32 | keeps its arguments; the state is the one loaded from disk when the store path is set and exists, else empty |
| SrcVectorStore.FaissVectorStore.LoadFromDisk | src/nexusmind/storage/faiss_vector_store.py:118-137 | with an existing store path the index is read from it, and the chunk list from the chunk file only when that exists; otherwise nothing changes |
| SrcVectorStore.FaissVectorStore.AddDocuments | src/nexusmind/storage/faiss_vector_store.py:40-70 | as the in-memory copy, and with a store path the files and the error are those of saving the new state |
| SrcVectorStore.FaissVectorStore.SaveToDisk | src/nexusmind/storage/faiss_vector_store.py:90-116 | the files and the error are those of `SaveEffect` on the current state |
| SrcVectorStore.FaissVectorStore.SimilaritySearch | src/nexusmind/storage/faiss_vector_store.py:72-88 | [] with no index or an empty query embedding; FAISS's `AssertionError` when `min(k, ntotal)` is 0 or the query's width is not the index's dimension; otherwise, on a well-formed store with an exact ranking, `min(k, ntotal)` chunks at distinct reported positions |
| Brains.VectorStorePath | src/nexusmind/brain/brain.py:53 | the store path is "storage/vs_", then the brain's id, then ".index" |
| Brains.VectorStoreFiles | src/nexusmind/brain/brain.py:49-54 | for a canonical id the chunk list of a brain's store lives at "storage/vs_<id>.json" |
| Brains.EndpointFor | src/nexusmind/brain/brain.py:41-47 | the endpoint carries the brain's model name, temperature and token limit |
| Brains.Brain.constructor | src/nexusmind/brain/brain.py:22-39 | the pydantic defaults for fields not given (fresh id, "Default Brain", empty history), the given configuration, an endpoint built from it and a fresh store at the brain's store path over that endpoint, loaded from disk |
| Brains.Brain.FromSnapshot | src/nexusmind/brain/serialization.py:40-46 | `model_validate` sets the serialised fields only: no endpoint and no vector store |
| BrainSerialization.GetBrainPath | src/nexusmind/brain/serialization.py:10-13 | the record path is "brains/", then the id, then ".json" |
| BrainSerialization.GetBrainPathInjective | src/nexusmind/brain/serialization.py:10-13 | two ids with the same record path are equal |
| BrainSerialization.LoadRecord | src/nexusmind/brain/serialization.py:32-46 | fails iff no record exists at the id's path, with the "No brain found with ID" message |
| BrainSerialization.SaveRecord | src/nexusmind/brain/serialization.py:16-25 | the record half of `save_brain`: the brain's fields written at its record path, every other path kept (`RecordRoundTrip` and `SaveRecordKeepsOthers` state it) |
| BrainSerialization.SaveRecordKeepsRecords | src/nexusmind/brain/serialization.py:22-25 | writing a record keeps every record file holding the record of the brain its path names |
| BrainSerialization.RecordRoundTrip | src/nexusmind/brain/serialization.py:16-46 | a saved record loads back as the same id, name, history and model settings |
| BrainSerialization.SaveRecordKeepsOthers | src/nexusmind/brain/serialization.py:22-25 | saving one brain leaves every other brain's record as it was |
| BrainSerialization.StoreFilesAreNotRecords | src/nexusmind/brain/brain.py:53 | a brain's index and chunk files are never a record path |
| BrainSerialization.StoreSaveKeepsRecords | src/nexusmind/brain/serialization.py:28-29 | a brain's store saving itself leaves every record as it was |
| BrainSerialization.WritesKeepRecords | src/nexusmind/brain/serialization.py:22-29 | writing two files that are not record paths leaves every record as it was |
| BrainSerialization.SavedBrainReloads | src/nexusmind/brain/serialization.py:16-46 | after saving a brain with a store, no error; the record loads back unchanged and, when the store has an index, a store re-created at the brain's path gets the same index and chunks |
| BrainSerialization.IndexChunkSuffix | src/nexusmind/brain/brain.py:53 | the store path does not end in ".json", so its chunk file is a separate file |
| BrainSerialization.SaveBrain | src/nexusmind/brain/serialization.py:16-29 | the record is written first; with a store, the store's own save follows and its error is the result |
| BrainSerialization.LoadBrain | src/nexusmind/brain/serialization.py:32-46 | errs iff no record exists, with the not-found message; otherwise a fresh brain with the stored fields and no runtime components |
| BrainSerialization.LoadWithRuntime | src/nexusmind/brain/brain.py:63-69 | as `LoadBrain`, and then the endpoint and the vector store re-created from the stored fields as `__init__` does |
| SrcRag.Prompt | src/nexusmind/rag/nexus_rag.py:58-74 | the prompt over a given fixed context: the header and the context, then, when the retrieved contents joined by the literal backslash-n separator are non-empty, the "(Content retrieved from vector store)" header and those contents, then the closing rule, the answer cue and the question; its frame, chunk containment and separator are proved in the lemmas below |
| SrcRag.GeneratePrompt | src/nexusmind/rag/nexus_rag.py:21-74 | `_generate_prompt`: `Prompt` over the hard-coded sensor log of lines 27-56 |
| SrcRag.PromptFrame | src/nexusmind/rag/nexus_rag.py:61-73 | the prompt opens with the header and the fixed sensor log and closes with "Please answer the question: " and the question |
| SrcRag.PromptContainsChunk | src/nexusmind/rag/nexus_rag.py:58-66 | every retrieved chunk's content appears in the prompt |
| SrcRag.RetrievedSectionIff | src/nexusmind/rag/nexus_rag.py:58-66 | the prompt is the bare template iff nothing was retrieved or the one retrieved chunk is empty |
| SrcRag.RetrievedSeparator | src/nexusmind/rag/nexus_rag.py:58 | consecutive retrieved contents are separated by the two characters '\' and 'n', not by a line break |
| SrcRag.NexusRAG.constructor | src/nexusmind/rag/nexus_rag.py:13-19 | the pipeline holds the given brain |
| SrcRag.NexusRAG.GenerateAnswer | src/nexusmind/rag/nexus_rag.py:76-113 | fails without a vector store, or with the search's error; after a k = 5 search, fails without an endpoint; otherwise sends the prompt as one user message, appends exactly one history entry and returns the reply; a failure leaves the history unchanged |
| CoreRag.Score | core/nexusmind/rag/nexus_rag.py:28-34 | a chunk's score is the number of distinct lower-cased words it shares with the question (`ScorePositive` states when it is positive) |
| CoreRag.ScorePositive | core/nexusmind/rag/nexus_rag.py:28-35 | a chunk scores above zero iff it shares a lowercased word with the question |
| CoreRag.ScoreChunks | core/nexusmind/rag/nexus_rag.py:31-36 | every kept entry has a positive score equal to its chunk's overlap and a chunk of the knowledge base; never more entries than chunks |
| CoreRag.ScoreChunksComplete | core/nexusmind/rag/nexus_rag.py:32-36 | every chunk with a positive score is kept, with that score |
| CoreRag.ScoreChunksStep | core/nexusmind/rag/nexus_rag.py:32-36 | one turn of the loop appends the next chunk with its score exactly when the score is positive |
| CoreRag.Insert | core/nexusmind/rag/nexus_rag.py:39 | one insertion step adds exactly the new entry, as a multiset |
| CoreRag.SortDesc | core/nexusmind/rag/nexus_rag.py:39 | the sort is a permutation of its input |
| CoreRag.WithScoreAppend | core/nexusmind/rag/nexus_rag.py:39 | the entries of one score in a concatenation are those of each part, in order |
| CoreRag.WithScoreNone | core/nexusmind/rag/nexus_rag.py:39 | a sequence whose scores are all below `s` has no entry of score `s` |
| CoreRag.InsertSorted | core/nexusmind/rag/nexus_rag.py:39 | inserting into a non-increasing sequence keeps it non-increasing |
| CoreRag.InsertStable | core/nexusmind/rag/nexus_rag.py:39 | the inserted entry comes after every entry of its own score, and entries of other scores keep their order |
| CoreRag.SortDescSorted | core/nexusmind/rag/nexus_rag.py:39 | the sort orders by non-increasing score (`reverse=True`) |
| CoreRag.SortDescStable | core/nexusmind/rag/nexus_rag.py:39 | the sort is stable: the entries of each score keep their original order |
| CoreRag.TopScored | core/nexusmind/rag/nexus_rag.py:28-42 | the first three of the positively scored chunks sorted by descending score, stably; relevance, order, stability and optimality are proved in `TopScoredRelevant`, `TopScoredSorted`, `TopScoredStable` and `TopScoredBest` |
| CoreRag.ChunksOf | core/nexusmind/rag/nexus_rag.py:42 | the chunks of the entries, one per entry, in order |
| CoreRag.TopScoredRelevant | core/nexusmind/rag/nexus_rag.py:28-42 | `min(3, positives)` entries, each a knowledge-base chunk with its own positive score that shares a word with the question |
| CoreRag.RetrievedRelevant | core/nexusmind/rag/nexus_rag.py:21-44 | at most three chunks, each from the knowledge base and sharing a word with the question; none from an empty knowledge base |
| CoreRag.TopScoredSorted | core/nexusmind/rag/nexus_rag.py:39-42 | the results are in non-increasing score order |
| CoreRag.TopScoredStable | core/nexusmind/rag/nexus_rag.py:32-42 | for each score, the results of that score are the first chunks of that score in knowledge-base order |
| CoreRag.PrefixBest | core/nexusmind/rag/nexus_rag.py:39-42 | in a sorted sequence an entry left out of the first `n` scores no higher than any kept one |
| CoreRag.SortedPrefixBest | core/nexusmind/rag/nexus_rag.py:39-42 | a prefix of the sort scores at least as high as every positive entry it leaves out |
| CoreRag.TopScoredBest | core/nexusmind/rag/nexus_rag.py:28-42 | no positively scored chunk that is left out scores higher than a returned one |
| CoreRag.GeneratePrompt | core/nexusmind/rag/nexus_rag.py:46-58 | `_generate_prompt`: the header, the retrieved contents joined by newlines, the closing rule, the answer cue and the question (`PromptEnds` and `PromptContainsChunk` state its shape) |
| CoreRag.PromptEnds | core/nexusmind/rag/nexus_rag.py:46-58 | the prompt ends with "Please answer the question: " and the question |
| CoreRag.PromptContainsChunk | core/nexusmind/rag/nexus_rag.py:46-58 | every context chunk's content appears in the prompt |
| CoreRag.NexusRAG.constructor | core/nexusmind/rag/nexus_rag.py:11-19 | keeps the brain; the knowledge base is the given one or [] |
| CoreRag.NexusRAG.Retrieve | core/nexusmind/rag/nexus_rag.py:21-44 | the chunks of the top three sorted positive entries: at most three, each from the knowledge base with a positive score |
| CoreRag.NexusRAG.GenerateAnswer | core/nexusmind/rag/nexus_rag.py:60-79 | fails without an endpoint, leaving the history alone; otherwise sends the prompt for the retrieved chunks as one user message, appends exactly one history entry and returns the reply |
| Records.Contents | src/nexusmind/rag/nexus_rag.py:58 | one content per chunk, that chunk's content, in order |
| Api.GetApiKey | main.py:36-48 | a missing or empty header is refused; with no configured keys any key is accepted, otherwise iff it is configured (403 "Could not validate credentials" otherwise); the accepted key is returned |
| Api.NewBrainSnapshot | main.py:85-91 | a new brain is named "Brain <id>", with an empty history, gpt-4o, temperature 0.0 and 256 tokens |
| Api.TaskTable.constructor | main.py:51 | the status table starts empty |
| Api.TaskTable.Set | main.py:139 | the given upload task's status is replaced and every other task's is kept |
| Api.App.constructor | main.py:51-70 | a fresh, empty task table, and a registry holding the plain-text processor under ".txt" |
| Api.App.UploadFile | main.py:156-157 | the new task id is recorded as PENDING and nothing else changes |
| Api.App.GetUploadStatus | main.py:183-186 | 404 "Task not found" iff no status is recorded for the id; otherwise its recorded status |
| Api.UploadChunks | main.py:123-130 | the chunks the plain-text processor makes of an upload named by its file name: one per non-blank line (its properties are those of `TxtProcessor.Process`) |
| Api.App.GetOrCreateBrain | main.py:73-94 | as written: an existing record is loaded through `Brain.load`, the disk is unchanged, and the brain comes back with the stored fields but no endpoint and no vector store; otherwise a new brain with the default settings is created and saved, and it has its endpoint and a fresh store holding what the disk held at its store path |
| Api.App.GetOrCreateBrainWithRuntime | main.py:73-94 | with the runtime re-created on load: either way the brain has its endpoint and a fresh store holding what the disk held at its store path; an existing record is left unchanged, a missing one is created with the default settings |
| Api.App.CreateBrain | main.py:83-94 | a brain named "Brain <id>" with gpt-4o, 0.0 and 256 is saved, its record loads back as those settings, and it has its endpoint and a fresh store holding what the disk held at its store path |
| Api.App.ProcessUploadedFile | main.py:102-143 | as written: the upload task ends SUCCESS iff the upload raises nothing and FAILURE otherwise, other tasks untouched; an unknown extension fails with the registry's error and an unreadable upload fails; into a brain whose record already existed every upload fails, with "Vector store not available for brain <id>." once the file is read, and the disk is unchanged; into a new brain the upload succeeds iff it is accepted (a processor for its extension, readable text, valid embeddings that fit the index), and then the brain's saved store holds the earlier vectors and chunks followed by the upload's |
| Api.App.ProcessUploadedFileWithRuntime | main.py:102-143 | over `GetOrCreateBrainWithRuntime`: the same task statuses and errors, and the upload succeeds iff it is accepted, into a new or a stored brain alike, with the upload's vectors and chunks then appended in the saved store |
| Api.App.Upload | main.py:113-137 | the `try` block as written ends as `ProcessUploadedFile` states, with the brain's record on disk afterwards |
| Api.App.UploadWithRuntime | main.py:113-137 | the `try` block over `GetOrCreateBrainWithRuntime` ends as `ProcessUploadedFileWithRuntime` states |
| Api.App.IngestInto | main.py:120-137 | a brain without a vector store fails with "Vector store not available for brain <id>." once its file is read, and the disk is unchanged; a brain with its runtime succeeds iff the upload is accepted against the store the disk held, and its saved store then holds the upload's vectors and chunks after the earlier ones |
| Api.App.Ingest | main.py:120-137 | an unknown extension fails with the registry's error, an unreadable upload fails, and a missing store fails with "Vector store not available for brain <id>."; it succeeds iff a processor, the text and a store are there and the valid embeddings fit the index; a failure changes nothing; on success the index holds the old vectors then the new valid ones, the chunk list the old chunks then the upload's, and the store saved on disk loads back as that state; brain records are untouched |
| CheckMigrations.ParseBetween | scripts/check_migrations.py:25-39 | the two `re.search` calls: the text from the first open marker to the next close marker, and the text after the first close marker, or no match (characterised by the lemmas below) |
| CheckMigrations.ParseSections | scripts/check_migrations.py:25-42 | `ParseBetween` with the `def upgrade() -> None:` and `def downgrade() -> None:` headers |
| CheckMigrations.BetweenFound | scripts/check_migrations.py:25-42 | a parsed upgrade body lies between the upgrade header and a downgrade header and holds no downgrade header; the downgrade body is everything after a downgrade header |
| CheckMigrations.UpgradeFound | scripts/check_migrations.py:25-29 | the text between a header and the first following close header is enclosed by them and holds no close header |
| CheckMigrations.UpgradeBounds | scripts/check_migrations.py:25-29 | the upgrade body starts after the first upgrade header and ends at the first downgrade header after it |
| CheckMigrations.DowngradeFound | scripts/check_migrations.py:30-32 | the downgrade body is the text after the first downgrade header, to the end of the file |
| CheckMigrations.BetweenMissing | scripts/check_migrations.py:25-39 | parsing fails only when no downgrade header follows any upgrade header |
| CheckMigrations.CommentIff | scripts/check_migrations.py:60 | looking past leading blanks for '#' is the same test as `line.strip().startswith("#")` |
| CheckMigrations.FindDrop | scripts/check_migrations.py:57-64 | the inner loop finds a drop iff some non-comment line contains the pattern, ignoring case |
| CheckMigrations.Undropped | scripts/check_migrations.py:52-71 | the enums reported for a file are exactly the created enums that no downgrade line drops |
| CheckMigrations.UndroppedStep | scripts/check_migrations.py:52-71 | one turn of the enum loop reports the next enum exactly when no line drops it |
| CheckMigrations.FileErrors | scripts/check_migrations.py:17-71 | one error per undropped created enum of a checked `.py` file other than `__init__.py` whose sections parse, in creation order, and none otherwise (`FileErrorsIff` states when an enum is reported) |
| CheckMigrations.AllErrors | scripts/check_migrations.py:16-71 | the errors of every file, in listing order (`CheckAll` is proved to report exactly these) |
| CheckMigrations.FileErrorsIff | scripts/check_migrations.py:16-71 | a file reports an enum iff it is a checked Python file, both sections parse, the upgrade creates the enum and no downgrade line drops it |
| CheckMigrations.CheckFile | scripts/check_migrations.py:17-71 | the errors of one file are those `FileErrors` specifies, one per undropped enum, in creation order |
| CheckMigrations.CheckAll | scripts/check_migrations.py:8-78 | the errors of every file in listing order; exit code 1 iff some file reports an error, 0 otherwise |

## Left out

- File I/O, directory creation, logging and `print` output are not modelled; the file system is the `Disk` map from path to what was last written, and the migration checker takes the directory listing and file texts as input.
- Text encodings are not modelled: strings are sequences of characters, and an upload that is not UTF-8 is an absent content (`None`) that fails the upload task. The exception messages of decoding are not reproduced.
- `str.lower()` and the case-insensitive match lower-case ASCII letters only; `str.isspace()`, `split()` and `splitlines()` use a fixed set of whitespace and line-boundary characters, not the full Unicode tables.
- Path normalisation (`..`, repeated separators, drive letters) is not modelled: paths are compared as strings.
- Floating point is not modelled: embeddings are sequences of reals, the temperature is a real, and the chunk overlap of the file parser is the integer `(3 * size) / 10`, truncated toward zero.
- FAISS distances are not computed: the index is the list of added vectors, and `index.search` is a ranking oracle constrained to return `min(k, ntotal)` distinct positions below `ntotal`.
- The embedding model, the chat model and the langchain text splitter are oracles passed in as functions; their internals are outside the model.
- The file parser's `_parse_unstructured` (core/file_processor/parsers.py:80-88) reads the file as UTF-8; the model takes that text as the `LocalFile.text` input. Its fallback to latin-1 when UTF-8 decoding fails is not modelled.
- `storage.save` of an upload (main.py:118-119) and the processor's `storage.get` are not modelled: the local storage is an I/O adapter, and the upload's decoded text is the `content` input of the upload methods (`None` when it is not UTF-8).
- UUIDs are supplied by a function from a counter to an id; their randomness is not modelled.
- The core copy of `Brain` and its serialization are not modelled. The application imports the core `Brain` (main.py:12), but the model uses the persisted `Brain` of `src/nexusmind/brain/`, whose store saves itself to disk. As written, the core `Brain.__init__` calls `_create_llm_endpoint` (core/nexusmind/brain/brain.py:29-31), which calls `LLMEndpoint(config)` (core/nexusmind/brain/brain.py:40), while the core `LLMEndpoint` takes three parameters (core/nexusmind/llm/llm_endpoint.py:12). So with the core `Brain` every brain creation in main.py raises a TypeError, and loading a stored record fails in `Brain(**data)` (core/nexusmind/brain/serialization.py:43). The upload and chat behaviour modelled here is the one main.py has with the src `Brain` in its place.
- Celery, the database layer and the HTTP framing (FastAPI dependencies, status-code responses, background scheduling) are not modelled; an HTTP error is its status code and detail text, and a background task runs to completion when it is called.
- The `/chat` endpoint (main.py:188-204) is not modelled as its own member. It is `BrainSerialization.LoadBrain` followed by `CoreRag.NexusRAG.GenerateAnswer` on a `CoreRag.NexusRAG` built with no knowledge base (main.py:13 and main.py:199), and both of those are modelled. The loaded brain has no endpoint, so this composition ends in `CoreRag.NoEndpoint` (core/nexusmind/rag/nexus_rag.py:72-73).
- Task statuses are an enumeration rather than the raw strings "PENDING", "PROCESSING", "SUCCESS" and "FAILURE"; `TaskStatus.Name` gives those strings.
- The parser's per-type handlers are not dispatched on `parser_type`: every handler reads the same decoded text, so only the chunking strategy decides the result.
- Api.App.Ingest: a batch whose embeddings do not match the index's dimension fails with the model's own message ("embedding dimension does not match the index"), where FAISS raises an assertion; an undecodable upload fails with "the upload is not valid UTF-8" rather than Python's `UnicodeDecodeError` text. The upload task's status is FAILURE either way, as in the source.
- CoreVectorStore.FaissVectorStore.AddDocuments: requires every valid embedding to have the index's dimension (the first one's, for a new index), where FAISS would raise; a mismatch is not modelled as an error.
- SrcVectorStore.FaissVectorStore.AddDocuments: the same dimension precondition as the in-memory copy.
- CoreVectorStore.FaissVectorStore.SimilaritySearch: `k` is a natural number, so a negative `k`, which `min` passes on and FAISS rejects with the same assertion as `k == 0`, is not modelled; `k == 0` and a query of the wrong width raise FAISS's `AssertionError`.
- SrcVectorStore.FaissVectorStore.SimilaritySearch: `k` is a natural number, as in the in-memory copy; `k == 0` and a query of the wrong width raise FAISS's `AssertionError`.
- CoreRag.GeneratePrompt: the literal in core/nexusmind/rag/nexus_rag.py:52-55 spans source lines inside single-quoted f-strings, which Python rejects; the model reads each of those line breaks as a newline character.
- CoreRag.NexusRAG.Retrieve: the in-place `list.sort` is modelled as a stable insertion sort on a sequence (`SortDesc`); the update in place is not modelled.
- CheckMigrations.CheckAll: the enums created by an upgrade body (the `sa.Enum(..., name='...')` pattern) are an input function, not a regular-expression search; the order of the directory listing is the order given.
- The history scenario of tests/test_brain.py:28-36 appends to the list directly; the model's appends are the one in each `GenerateAnswer`.

## Findings

| source | as written | input that shows it | evidently intended | confidence | as-written member | corrected member |
|---|---|---|---|---|---|---|
| src/nexusmind/brain/serialization.py:40-46 | `load_brain` builds the brain with `model_validate`, which skips `__init__`, so the loaded brain has no endpoint and no vector store, and `Brain.load` does not add them | any saved id, with main.py's `Brain` taken as the src `Brain`: after `get_or_create_brain` has saved a brain, loading it again for `/chat` gives a brain whose `llm_endpoint` and `vector_store` are `None`; `/chat` builds the core `NexusRAG` over an empty knowledge base (main.py:199), so `generate_answer` raises "LLM endpoint not initialized in Brain." (core/nexusmind/rag/nexus_rag.py:72-73); likewise a second upload to the same brain ends FAILURE with "Vector store not available for brain <id>." (see the next row) | the runtime components are re-created from the stored fields, as the comment at lines 42-45 and tests/test_brain.py:71 expect | not executed | BrainSerialization.LoadBrain | BrainSerialization.LoadWithRuntime |
| main.py:73-143 | with main.py's `Brain` taken as the src `Brain` (the core `Brain` it imports fails earlier, see "## Left out"), `process_uploaded_file` gets its brain from `get_or_create_brain`, which returns `Brain.load`'s brain for an existing record; that brain has no vector store, so the upload raises at main.py:136-137 | any brain id, with the src `Brain`: the first upload creates and saves the brain and succeeds; every later upload to that id ends FAILURE with "Vector store not available for brain <id>.", and its chunks never reach the store | later uploads are added to the brain's saved store like the first | not executed | Api.App.ProcessUploadedFile | Api.App.ProcessUploadedFileWithRuntime |
