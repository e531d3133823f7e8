# Incremental indexing of a YouTube persona, modelled in Dafny

This project models the two pieces of sequential logic in the indexing side of
the `youtube-rag` repository, which builds a retrieval index of one channel's
video transcripts:

- **The indexing assets** (`src/youtube_persona/indexing/assets.py`).
  - Vector ids follow the scheme `"{video_id}#chunk{i}"`.
  - The `transcripts` asset loads a transcript only for videos whose chunk-0 id
    is not yet in the persona's namespace. It reports their sources as
    `newly_indexed_videos`.
  - The `index_transcripts` asset splits each transcript and builds one vector
    per chunk. It then sends one upsert request per transcript to namespace
    `@show-me-the-data`.
- **The batching helper `_chunker`** (`src/indexing/utils.py`). It breaks a
  sequence into consecutive batches of `batch_size` elements (default 50).

The vector store is the `PineconeResource` class. Its state is one map from
vector id to record per namespace: `fetch` reads the map and `upsert`
overwrites by id, and it logs every upsert request. The transcript loader is
the `TranscriptLoader` class: a function from video id to documents, plus a
log of every video it was asked to load. The text splitter and the embedder
are function parameters. The model does not constrain what the loader, the
splitter or the embedder return.

Files, one module each:

| file | module | models |
|---|---|---|
| `wrappers.dfy` | `Wrappers` | `Option`, `Result` |
| `sequences.dfy` | `Sequences` | concatenation of sequences |
| `utils.dfy` | `Utils` | `_chunker` |
| `vector_ids.dfy` | `VectorIds` | `_get_index_id_from_video_id`, decimal numerals, and the inverse parser |
| `resources.dfy` | `Resources` | `PineconeResource`: fetch, `is_document_already_indexed`, upsert |
| `assets.dfy` | `Assets` | `transcripts`, the vector comprehension, `index_transcripts` |

Main results:

- Vector ids are unique for **all** video ids, including ones that contain
  `#`. The text after the last `#` is always `chunk` followed by digits, so an
  id parses back to its video id and chunk index (`ParseChunkIdSound`).
- `transcripts` never calls the loader for a video whose `…#chunk0` id is
  present. The loader's own call log, not a list the method builds, grows by
  exactly the videos whose chunk-0 id is absent, in input order. It returns
  `docs[0]` for each pending video, in input order. It cannot modify the
  store: its only `modifies` clause names the loader.
- `index_transcripts` ends in the state of a reference run, `IndexRun`. Every
  transcript up to the first exception gets exactly one request into
  `@show-me-the-data`, and no other namespace changes. A run's requests do not
  depend on what the store already holds, so a second identical run leaves
  the store exactly as the first one did, given a deterministic splitter and
  embedder (`IndexRunIdempotent`).
- `_chunker` partitions its input. The batches concatenate to the input, none
  is empty, and all but the last are full. There are `ceil(n / batch_size)`
  of them, and this partition is the only one with these properties.

## Model

| member | source | states |
|---|---|---|
| `Utils.Chunker` | src/indexing/utils.py:5-11 | For `batch_size >= 1` the batches concatenate to the input. Every batch has 1 to `batch_size` elements, and all but the last have exactly `batch_size`. An empty input gives no batches. There are `ceil(len / batch_size)` batches. `batch_size == 0` gives no batches. `batch_size` defaults to 50. |
| `Utils.BatchCount` | src/indexing/utils.py:5-11 | Any partition into batches of size `n` has `(len + n - 1) / n` batches. |
| `Utils.BatchingUnique` | src/indexing/utils.py:5-11 | Two partitions of the same input with the same batch size are equal, so the contract of `Chunker` fixes its result. |
| `VectorIds.Decimal` | src/youtube_persona/indexing/assets.py:63 | The formatted chunk index is a non-empty string of digits. Its first digit is `0` exactly when the index is 0, and then it is the only digit. |
| `VectorIds.DecimalRoundTrip` | src/youtube_persona/indexing/assets.py:63 | Reading the formatted index back as a number gives the index. |
| `VectorIds.ChunkId` | src/youtube_persona/indexing/assets.py:62-63 | The definition of the id scheme, `"{video_id}#chunk{chunk_index}"`. Its properties are `ParseChunkIdRoundTrip`, `ParseChunkIdSound` and `ChunkIdInjective`. |
| `VectorIds.DedupKey` | src/youtube_persona/indexing/assets.py:81 | The id used by the dedup check, with the default `chunk_index`, is `video_id + "#chunk0"`. |
| `VectorIds.ParseChunkIdRoundTrip` | src/youtube_persona/indexing/assets.py:62-63 | Parsing `"{video_id}#chunk{i}"` gives back `(video_id, i)` for every video id and index. |
| `VectorIds.ParseChunkIdSound` | src/youtube_persona/indexing/assets.py:62-63 | A string parses to `(v, i)` if and only if it is the id of chunk `i` of video `v`. |
| `VectorIds.ChunkIdInjective` | src/youtube_persona/indexing/assets.py:62-63 | Two ids are equal if and only if their video ids and chunk indices are equal. This holds for all video ids. |
| `Resources.PineconeResource.Fetch` | src/indexing/resources.py:17-20 | Returns exactly those requested ids that are present in the namespace, each with its stored record. |
| `Resources.PineconeResource.IsDocumentAlreadyIndexed` | src/indexing/resources.py:16-21 | A non-empty fetch result means the id is present in the namespace, and the converse holds too. |
| `Resources.PineconeResource.Upsert` | src/indexing/resources.py:23-24 | The namespace becomes the overwrite-by-id update of its old entries. No other namespace changes. The request is appended to the service's log. |
| `Resources.UpsertAll` | src/indexing/resources.py:23-24 | The definition of overwrite-by-id: the vectors are written in order, and each one replaces the record under its id. Its properties are `UpsertAllKeys`, `UpsertAllKeeps`, `UpsertAllLastWrite`, `UpsertAllAppend` and `UpsertAllIdempotent`. |
| `Resources.UpsertAllKeys` | src/indexing/resources.py:23-24 | After an upsert the keys are the old keys plus the written ids. |
| `Resources.UpsertAllKeeps` | src/indexing/resources.py:23-24 | A key that is not written stays present and keeps its record. |
| `Resources.UpsertAllLastWrite` | src/indexing/resources.py:23-24 | A written id is present and holds the record of the last vector written under it. |
| `Resources.UpsertAllAppend` | src/indexing/resources.py:23-24 | Upserting two requests in turn equals upserting their concatenation. |
| `Resources.UpsertAllIdempotent` | src/indexing/resources.py:23-24 | Repeating an upsert leaves the namespace unchanged. |
| `Assets.PendingVideos` | src/youtube_persona/indexing/assets.py:80-85 | The definition of the dedup filter: the input videos whose chunk-0 id is absent, in input order. Its properties are `PendingVideosMembers`, `PendingVideosAppend` and `PendingVideosSingle`. |
| `Assets.PendingVideosMembers` | src/youtube_persona/indexing/assets.py:80-85 | A video is pending if and only if it is in the input and its chunk-0 id is absent from the namespace. There are never more pending videos than inputs. |
| `Assets.PendingVideosAppend` | src/youtube_persona/indexing/assets.py:80-95 | The pending filter distributes over concatenation, so it keeps input order. |
| `Assets.PendingVideosSingle` | src/youtube_persona/indexing/assets.py:81-85 | On one video, the filter keeps it exactly when its chunk-0 id is absent. |
| `Assets.Sources` | src/youtube_persona/indexing/assets.py:98-100 | Succeeds if and only if every document has a `source`. The result then has the same length and order as the documents, each entry being that document's `source`. Otherwise it raises `KeyError('source')`. |
| `Assets.TranscriptLoader.Load` | src/youtube_persona/indexing/assets.py:87-92 | Returns the documents the loader has for the video and appends the video id to the loader's call log. |
| `Assets.Transcripts` | src/youtube_persona/indexing/assets.py:78-102 | The loader is called only for pending videos, in input order, and never for an already-indexed one. Success holds if and only if every pending video yields at least one document and the first one has a `source`. On success it returns `docs[0]` for every pending video, in order, and `newly_indexed_videos` is their sources in the same order. An `IndexError` names the last video loaded, whose load was empty, and every earlier load was non-empty. A `KeyError('source')` comes only after every pending video was loaded and none of those loads was empty. So the first empty load ends the asset with `IndexError` at that video, and no later video is loaded. The loader's call log grows by exactly those loads, which are at most the pending videos, in input order. The store is only read. |
| `Assets.BuildVectorsFrom` | src/youtube_persona/indexing/assets.py:128-135 | The definition of the vector comprehension over `enumerate(doc_chunks)`, numbering from a given index. Its properties are `BuildVectorsFromSpec`. |
| `Assets.BuildVectors` | src/youtube_persona/indexing/assets.py:128-135 | The comprehension numbered from 0. Its properties are `BuiltIdsDistinct` and `BuiltIdsContiguous`. |
| `Assets.BuildVectorsFromSpec` | src/youtube_persona/indexing/assets.py:128-135 | Succeeds if and only if every chunk has a `source`, otherwise raises `KeyError('source')`. It builds one vector per chunk, in order. Vector `i` has id `ChunkId(source_i, i)` and the chunk text's embedding. Its metadata is the chunk's metadata with `text` set to the chunk text, overriding any earlier `text`. |
| `Assets.BuiltIdsDistinct` | src/youtube_persona/indexing/assets.py:129 | The ids of one transcript's vectors are pairwise distinct, whatever the chunks' sources. |
| `Assets.BuiltIdsContiguous` | src/youtube_persona/indexing/assets.py:128-135 | When every chunk carries source `s`, the vectors are `s#chunk0 … s#chunk{n-1}`: the `i`-th id is `ChunkId(s, i)` and parses to `(s, i)`. |
| `Assets.TranscriptVectors` | src/youtube_persona/indexing/assets.py:121-135 | The definition of one transcript's step: reading `source` for the log line, then splitting and building the vectors. Its properties are `TranscriptVectorsSpec`. |
| `Assets.TranscriptVectorsSpec` | src/youtube_persona/indexing/assets.py:121-135 | A transcript's vectors are built if and only if it and every one of its chunks have a `source`. Otherwise it raises `KeyError('source')`. On success there is one vector per chunk, in order, vector `i` being chunk `i`'s vector as `BuildVectorsFromSpec` describes. |
| `Assets.IndexRun` | src/youtube_persona/indexing/assets.py:120-138 | The reference semantics of the loop: one upsert per transcript, in order, until a transcript raises. Its properties are `IndexRunBatches`, `IndexRunEntries`, `IndexRunIndependent`, `IndexRunIdempotent` and `IndexRunKeys`, and `IndexTranscripts` is proved to end in its state. |
| `Assets.IndexRunBatches` | src/youtube_persona/indexing/assets.py:120-138 | One request per transcript, in order, holding that transcript's vectors, up to the first transcript that raises. A completed run has one request for every transcript. An aborted run stops at the transcript that raised, with that error. |
| `Assets.IndexRunEntries` | src/youtube_persona/indexing/assets.py:120-138 | The namespace after a run equals one overwrite-by-id upsert of all the run's requests, in order. |
| `Assets.IndexRunIndependent` | src/youtube_persona/indexing/assets.py:120-138 | A run's requests and its outcome do not depend on the namespace's prior contents. |
| `Assets.IndexRunIdempotent` | src/youtube_persona/indexing/assets.py:120-138 | Re-running on the namespace a run left behind gives the same run: the same requests, the same outcome and the same entries. The key set is the same and the store does not grow. |
| `Assets.IndexRunKeys` | src/youtube_persona/indexing/assets.py:120-138 | Afterwards the keys are the old keys plus every written id. Every written id is present, and every key that was not written keeps its record. |
| `Assets.IndexedVideoIsSkipped` | src/youtube_persona/indexing/assets.py:81-129 | Once a transcript with source `s` is upserted, and its first chunk carries `s`, `s#chunk0` is present in the namespace the run leaves, so `s` is not pending there. Later upserts never remove a key (`UpsertAllKeys`), so `s` stays not pending after them. |
| `Assets.IndexTranscripts` | src/youtube_persona/indexing/assets.py:120-138 | The persona's namespace ends as `IndexRun` says, and the outcome is the run's. The service received exactly the run's requests, in order, all into `@show-me-the-data`. No other namespace changed. |

## Left out

- `video_ids` (channel and playlist lookup through the YouTube Data API) is
  network I/O and is not modelled. Its list of video ids is an input of
  `Transcripts`.
- The transcript loader is keyed by video id. The watch URL it is built from
  (`assets.py:87-91`) is folded into it.
- The loader's own failures are not modelled; only an empty list is. An empty
  list is what it returns for a video without captions, and it makes the
  asset raise `IndexError` at `docs[0]`.
- `_split_text` delegates to LangChain's `RecursiveCharacterTextSplitter`
  (chunk size 1024, overlap 20). That library is not part of this model, so
  the splitter is an unconstrained parameter. No chunk-length, overlap or
  start-offset property is stated.
- `embed_openai` is an unconstrained parameter from text to a vector of reals.
  Its network failures and the values it returns are not modelled.
- `IndexRunIdempotent`: the embedder and the splitter are Dafny functions, so
  they are assumed deterministic: the same text always gives the same chunks
  and the same vector. A real embedding service need not be. The claim that a
  second run leaves the store as the first one did rests on this assumption.
  Without it, a second run still keeps every key the first one left, because
  an upsert never removes a key (`IndexRunKeys`).
- The Pinecone client behind `PineconeResource` is not part of this model, and
  neither is `setup_for_execution`. Fetch and upsert never fail in the model.
  Pinecone's reply to an upsert with no vectors is not modelled either: a
  transcript that splits into no chunks sends a request that writes nothing.
- Metadata values are modelled as strings. The non-string values the loader
  and the splitter add (such as `start_index`) are outside the model.
- `Chunker`: the generator is modelled eagerly, as the list of every batch it
  would yield in order. Its laziness and the shared-iterator protocol are not
  modelled.
- Logging, `context.log`, and the Dagster job, schedule and resource wiring
  (`src/youtube_persona/indexing/__init__.py`) are not modelled. The
  `newly_indexed_videos` output metadata is returned as a value.
- Environment-variable reads are not modelled.
- The retrieval chains in both `retrieval.py` files are not modelled: query
  expansion, similarity search, answer generation. They are language-model
  and vector-search calls.
- The HTTP server in `serve.py` is not modelled either.
- The code has no per-video failure isolation: an `IndexError` or `KeyError`
  aborts the asset, and requests already sent stay applied. The model does the
  same.
- Dedup and indexing use different keys. The dedup check uses the loop's
  video id (`assets.py:81`), while vector ids use each chunk's
  `metadata['source']` (`assets.py:129`). They agree only if the loader sets
  `source` to the video id and the splitter copies it to every chunk.
  `IndexedVideoIsSkipped` takes the second condition as a precondition and
  states the first in terms of `source`.
- A present chunk-0 id counts as "already indexed" even if later chunks were
  never written. The model keeps this behaviour. It proves nothing about
  completeness.
