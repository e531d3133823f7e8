/**
  The incremental indexing assets. `transcripts` keeps the videos whose
  chunk-0 id is absent from the persona's namespace and loads one transcript
  for each; `index_transcripts` splits every transcript, builds one vector per
  chunk and upserts them in one request per transcript. The transcript loader,
  the text splitter and the embedder are parameters.
 */
module Assets {
  import opened Wrappers
  import opened Sequences
  import opened VectorIds
  import opened Resources

  /** The namespace all reads and writes of the assets go to. */
  const UserHandle: string := "@show-me-the-data"

  const SourceKey: string := "source"
  const TextKey: string := "text"

  /** A LangChain document: page content and metadata. */
  datatype Document = Document(pageContent: string, metadata: Metadata)

  /** The exceptions the assets raise themselves. */
  datatype Error =
    | IndexError(videoId: string)  // `docs[0]` on a video the loader found nothing for
    | KeyError(key: string)        // a document without the metadata key

  /** The value of the `transcripts` asset and the metadata it reports. */
  datatype TranscriptsOutput = TranscriptsOutput(transcripts: seq<Document>, newlyIndexedVideos: seq<string>)

  /** How a run of `index_transcripts` ends. */
  datatype Outcome = Completed | Aborted(error: Error)

  /**
    The effect of indexing a sequence of transcripts: the namespace
    afterwards, the vectors of each upsert request in order, and how it ended.
   */
  datatype IndexRunResult = IndexRunResult(entries: Entries, batches: seq<seq<Vector>>, outcome: Outcome)

  // ---------------------------------------------------------------------------
  // transcripts
  // ---------------------------------------------------------------------------

  /** The videos not yet indexed in `entries`, in input order. */
  function PendingVideos(entries: Entries, videoIds: seq<string>): seq<string>
  {
    if videoIds == [] then []
    else
      (if DedupKey(videoIds[0]) in entries then [] else [videoIds[0]])
      + PendingVideos(entries, videoIds[1..])
  }

  /** A video is pending exactly when it is in the input and its chunk-0 id is absent. */
  lemma {:induction false} PendingVideosMembers(entries: Entries, videoIds: seq<string>)
    ensures var pending := PendingVideos(entries, videoIds);
      && |pending| <= |videoIds|
      && forall v :: v in pending <==> v in videoIds && DedupKey(v) !in entries
  {
    if videoIds != [] {
      PendingVideosMembers(entries, videoIds[1..]);
      assert videoIds == [videoIds[0]] + videoIds[1..];
    }
  }

  /** Filtering distributes over concatenation, so it keeps the input order. */
  lemma {:induction false} PendingVideosAppend(entries: Entries, a: seq<string>, b: seq<string>)
    ensures PendingVideos(entries, a + b) == PendingVideos(entries, a) + PendingVideos(entries, b)
  {
    if a == [] {
      assert a + b == b;
    } else {
      assert (a + b)[0] == a[0];
      assert (a + b)[1..] == a[1..] + b;
      PendingVideosAppend(entries, a[1..], b);
    }
  }

  /** On one video, the filter keeps it exactly when its chunk-0 id is absent. */
  lemma PendingVideosSingle(entries: Entries, v: string)
    ensures PendingVideos(entries, [v]) == if DedupKey(v) in entries then [] else [v]
  {
    assert [v][1..] == [];
  }

  /** The sources of documents, as `map(lambda video: video.metadata['source'], ...)` gives them. */
  function Sources(docs: seq<Document>): (r: Result<seq<string>, Error>)
    ensures r.Success? <==> forall i :: 0 <= i < |docs| ==> SourceKey in docs[i].metadata
    ensures r.Failure? ==> r.error == KeyError(SourceKey)
    ensures r.Success? ==> |r.value| == |docs|
    ensures r.Success? ==> forall i :: 0 <= i < |docs| ==> r.value[i] == docs[i].metadata[SourceKey]
  {
    if docs == [] then Success([])
    else if SourceKey !in docs[0].metadata then Failure(KeyError(SourceKey))
    else
      match Sources(docs[1..])
      case Failure(e) => Failure(e)
      case Success(rest) => Success([docs[0].metadata[SourceKey]] + rest)
  }

  /**
    The transcript loader, `YoutubeLoader.from_youtube_url(...).load()` for one
    video id. `docsOf` gives the documents it returns for a video, and `calls`
    logs every video id it was asked to load, in order.
   */
  class TranscriptLoader {
    const docsOf: string -> seq<Document>
    ghost var calls: seq<string>

    constructor(docsOf: string -> seq<Document>)
      ensures this.docsOf == docsOf && calls == []
    {
      this.docsOf := docsOf;
      calls := [];
    }

    method Load(videoId: string) returns (docs: seq<Document>)
      modifies this
      ensures docs == docsOf(videoId)
      ensures calls == old(calls) + [videoId]
    {
      docs := docsOf(videoId);
      calls := calls + [videoId];
    }
  }

  /** The loader found at least one document for each of `videos`. */
  ghost predicate AllNonEmpty(videos: seq<string>, load: string -> seq<Document>)
  {
    forall i :: 0 <= i < |videos| ==> load(videos[i]) != []
  }

  /** `transcripts` holds, in order, the first document the loader found for each of `videos`. */
  ghost predicate FirstDocuments(videos: seq<string>, transcripts: seq<Document>, load: string -> seq<Document>)
  {
    && |transcripts| == |videos|
    && forall i :: 0 <= i < |videos| ==> load(videos[i]) != [] && transcripts[i] == load(videos[i])[0]
  }

  /** The loader finds a transcript with a source for every one of `videos`. */
  ghost predicate AllLoadable(videos: seq<string>, load: string -> seq<Document>)
  {
    forall i :: 0 <= i < |videos| ==> load(videos[i]) != [] && SourceKey in load(videos[i])[0].metadata
  }

  /**
    The `transcripts` asset. `fetched` lists, in order, the videos the loader
    was called for, which the loader's own log records. The store is only
    read: the method modifies the loader's log and nothing else.
   */
  method Transcripts(store: PineconeResource, videoIds: seq<string>, loader: TranscriptLoader)
    returns (result: Result<TranscriptsOutput, Error>, ghost fetched: seq<string>)
    modifies loader
    // the loader is called exactly for `fetched`, in order: only for videos whose chunk-0 id is absent
    ensures loader.calls == old(loader.calls) + fetched
    ensures fetched <= PendingVideos(store.Namespace(UserHandle), videoIds)
    ensures forall v :: v in fetched ==> v in videoIds && DedupKey(v) !in store.Namespace(UserHandle)
    // the run succeeds exactly when every pending video has a transcript with a source
    ensures result.Success? <==> AllLoadable(PendingVideos(store.Namespace(UserHandle), videoIds), loader.docsOf)
    // on success: every pending video was loaded, and its first document is returned
    ensures result.Success? ==>
      var out := result.value;
      && fetched == PendingVideos(store.Namespace(UserHandle), videoIds)
      && FirstDocuments(fetched, out.transcripts, loader.docsOf)
    // the reported metadata is the sources of the returned transcripts
    ensures result.Success? ==>
      var out := result.value;
      && |out.newlyIndexedVideos| == |out.transcripts|
      && forall i :: 0 <= i < |out.transcripts| ==> out.newlyIndexedVideos[i] == out.transcripts[i].metadata[SourceKey]
    // `docs[0]` fails on the first pending video the loader found nothing for
    ensures result.Failure? && result.error.IndexError? ==>
      && fetched != []
      && result.error.videoId == fetched[|fetched| - 1]
      && loader.docsOf(fetched[|fetched| - 1]) == []
      && AllNonEmpty(fetched[..|fetched| - 1], loader.docsOf)
    // reading the sources fails only after every pending video loaded at least one document
    ensures result.Failure? && result.error.KeyError? ==>
      && result.error.key == SourceKey
      && fetched == PendingVideos(store.Namespace(UserHandle), videoIds)
      && AllNonEmpty(fetched, loader.docsOf)
  {
    ghost var entries := store.Namespace(UserHandle);
    ghost var load := loader.docsOf;
    var videoTranscripts: seq<Document> := [];
    fetched := [];
    var i := 0;
    while i < |videoIds|
      invariant 0 <= i <= |videoIds|
      invariant fetched == PendingVideos(entries, videoIds[..i])
      invariant loader.calls == old(loader.calls) + fetched
      invariant store.Namespace(UserHandle) == entries
      invariant FirstDocuments(fetched, videoTranscripts, load)
    {
      var videoId := videoIds[i];
      var pineconeId := DedupKey(videoId);
      PendingStep(entries, videoIds, i);
      var indexed := store.IsDocumentAlreadyIndexed(pineconeId, UserHandle);
      if !indexed {
        var docs := loader.Load(videoId);
        fetched := fetched + [videoId];
        if docs == [] {
          PendingPrefix(entries, videoIds, i + 1);
          PendingVideosMembers(entries, videoIds);
          ghost var pending := PendingVideos(entries, videoIds);
          assert pending[|fetched| - 1] == videoId;
          assert !AllLoadable(pending, load);
          result := Failure(IndexError(videoId));
          return;
        }
        videoTranscripts := videoTranscripts + [docs[0]];
      }
      i := i + 1;
    }
    assert videoIds[..i] == videoIds;
    PendingVideosMembers(entries, videoIds);
    var sources := Sources(videoTranscripts);
    if sources.Failure? {
      var j :| 0 <= j < |videoTranscripts| && SourceKey !in videoTranscripts[j].metadata;
      assert !AllLoadable(fetched, load) by {
        assert videoTranscripts[j] == load(fetched[j])[0];
      }
      result := Failure(sources.error);
      return;
    }
    assert AllLoadable(fetched, load) by {
      forall j | 0 <= j < |fetched| ensures load(fetched[j]) != [] && SourceKey in load(fetched[j])[0].metadata {
        assert SourceKey in videoTranscripts[j].metadata;
      }
    }
    result := Success(TranscriptsOutput(videoTranscripts, sources.value));
  }

  lemma PendingStep(entries: Entries, videoIds: seq<string>, i: nat)
    requires i < |videoIds|
    ensures PendingVideos(entries, videoIds[..i + 1])
         == PendingVideos(entries, videoIds[..i]) + (if DedupKey(videoIds[i]) in entries then [] else [videoIds[i]])
  {
    assert videoIds[..i + 1] == videoIds[..i] + [videoIds[i]];
    PendingVideosAppend(entries, videoIds[..i], [videoIds[i]]);
    PendingVideosSingle(entries, videoIds[i]);
  }

  lemma PendingPrefix(entries: Entries, videoIds: seq<string>, n: nat)
    requires n <= |videoIds|
    ensures PendingVideos(entries, videoIds[..n]) <= PendingVideos(entries, videoIds)
  {
    assert videoIds == videoIds[..n] + videoIds[n..];
    PendingVideosAppend(entries, videoIds[..n], videoIds[n..]);
  }

  // ---------------------------------------------------------------------------
  // index_transcripts
  // ---------------------------------------------------------------------------

  /**
    `v` is the vector of `chunk` at position `index` of its transcript's split:
    its id is the chunk's source with the index, its values the chunk text's
    embedding, and its metadata the chunk's metadata with `text` set to the
    chunk text, overriding any `text` key the chunk had.
   */
  ghost predicate IsChunkVector(v: Vector, chunk: Document, index: nat, embed: string -> Embedding)
  {
    && SourceKey in chunk.metadata
    && v.id == ChunkId(chunk.metadata[SourceKey], index)
    && v.values == embed(chunk.pageContent)
    && TextKey in v.metadata
    && v.metadata[TextKey] == chunk.pageContent
    && (forall key :: key != TextKey ==> (key in v.metadata <==> key in chunk.metadata))
    && (forall key :: key != TextKey && key in chunk.metadata ==> v.metadata[key] == chunk.metadata[key])
  }

  /**
    The vectors built for `chunks`, the chunks from position `start` on of
    one transcript's split: the comprehension over `enumerate(doc_chunks)`.
   */
  function BuildVectorsFrom(chunks: seq<Document>, start: nat, embed: string -> Embedding): Result<seq<Vector>, Error>
    decreases |chunks|
  {
    if chunks == [] then Success([])
    else if SourceKey !in chunks[0].metadata then Failure(KeyError(SourceKey))
    else
      var c := chunks[0];
      var v := Vector(ChunkId(c.metadata[SourceKey], start), embed(c.pageContent), c.metadata[TextKey := c.pageContent]);
      match BuildVectorsFrom(chunks[1..], start + 1, embed)
      case Failure(e) => Failure(e)
      case Success(rest) => Success([v] + rest)
  }

  /**
    The comprehension succeeds exactly when every chunk has a source, and
    raises a KeyError otherwise; it builds one vector per chunk, in order,
    the vector of the chunk at position `start + i`.
   */
  lemma {:induction false} BuildVectorsFromSpec(chunks: seq<Document>, start: nat, embed: string -> Embedding)
    ensures var r := BuildVectorsFrom(chunks, start, embed);
      && (r.Success? <==> forall i :: 0 <= i < |chunks| ==> SourceKey in chunks[i].metadata)
      && (r.Failure? ==> r.error == KeyError(SourceKey))
      && (r.Success? ==> |r.value| == |chunks|)
      && (r.Success? ==> forall i :: 0 <= i < |chunks| ==> IsChunkVector(r.value[i], chunks[i], start + i, embed))
    decreases |chunks|
  {
    if chunks != [] {
      BuildVectorsFromSpec(chunks[1..], start + 1, embed);
      var r := BuildVectorsFrom(chunks, start, embed);
      if r.Success? {
        var rest := BuildVectorsFrom(chunks[1..], start + 1, embed).value;
        forall i | 0 <= i < |chunks| ensures IsChunkVector(r.value[i], chunks[i], start + i, embed) {
          if i > 0 {
            assert r.value[i] == rest[i - 1];
            assert chunks[i] == chunks[1..][i - 1];
          }
        }
      } else if SourceKey in chunks[0].metadata {
        var k :| 0 <= k < |chunks[1..]| && SourceKey !in chunks[1..][k].metadata;
        assert chunks[k + 1] == chunks[1..][k];
      }
    }
  }

  /** The vectors of one transcript's chunks, numbered from 0. */
  function BuildVectors(chunks: seq<Document>, embed: string -> Embedding): Result<seq<Vector>, Error>
  {
    BuildVectorsFrom(chunks, 0, embed)
  }

  /** The built ids are pairwise distinct, whatever the chunks' sources. */
  lemma BuiltIdsDistinct(chunks: seq<Document>, embed: string -> Embedding)
    requires BuildVectors(chunks, embed).Success?
    ensures var vs := BuildVectors(chunks, embed).value;
      forall i, j :: 0 <= i < j < |vs| ==> vs[i].id != vs[j].id
  {
    var vs := BuildVectors(chunks, embed).value;
    BuildVectorsFromSpec(chunks, 0, embed);
    forall i, j | 0 <= i < j < |vs| ensures vs[i].id != vs[j].id {
      ChunkIdInjective(chunks[i].metadata[SourceKey], i, chunks[j].metadata[SourceKey], j);
    }
  }

  /**
    When every chunk carries the transcript's source `s`, the ids are
    `s#chunk0 … s#chunk{n-1}`: the i-th id is `ChunkId(s, i)`, and it parses
    back to `(s, i)`.
   */
  lemma BuiltIdsContiguous(chunks: seq<Document>, embed: string -> Embedding, s: string)
    requires forall i :: 0 <= i < |chunks| ==> SourceKey in chunks[i].metadata && chunks[i].metadata[SourceKey] == s
    ensures BuildVectors(chunks, embed).Success?
    ensures var vs := BuildVectors(chunks, embed).value;
      |vs| == |chunks| && forall i :: 0 <= i < |vs| ==> vs[i].id == ChunkId(s, i) && ParseChunkId(vs[i].id) == Some((s, i))
  {
    BuildVectorsFromSpec(chunks, 0, embed);
    var vs := BuildVectors(chunks, embed).value;
    forall i | 0 <= i < |vs| ensures vs[i].id == ChunkId(s, i) && ParseChunkId(vs[i].id) == Some((s, i)) {
      assert IsChunkVector(vs[i], chunks[i], i, embed);
      ParseChunkIdRoundTrip(s, i);
    }
  }

  /**
    What `index_transcripts` builds for one transcript: reading its source
    (for the log line) raises a KeyError first, then the chunk vectors.
   */
  function TranscriptVectors(transcript: Document, split: Document -> seq<Document>, embed: string -> Embedding): Result<seq<Vector>, Error>
  {
    if SourceKey !in transcript.metadata then Failure(KeyError(SourceKey))
    else BuildVectors(split(transcript), embed)
  }

  /**
    A transcript's vectors are built exactly when it and every one of its
    chunks have a source; then there is one vector per chunk, in order.
   */
  lemma TranscriptVectorsSpec(transcript: Document, split: Document -> seq<Document>, embed: string -> Embedding)
    ensures var r := TranscriptVectors(transcript, split, embed);
      var chunks := split(transcript);
      && (r.Success? <==> SourceKey in transcript.metadata && forall i :: 0 <= i < |chunks| ==> SourceKey in chunks[i].metadata)
      && (r.Failure? ==> r.error == KeyError(SourceKey))
      && (r.Success? ==> |r.value| == |chunks| && forall i :: 0 <= i < |chunks| ==> IsChunkVector(r.value[i], chunks[i], i, embed))
  {
    BuildVectorsFromSpec(split(transcript), 0, embed);
  }

  /**
    The reference semantics of `index_transcripts` on the namespace `entries`:
    one upsert per transcript, in order, until a transcript raises.
   */
  function IndexRun(entries: Entries, transcripts: seq<Document>, split: Document -> seq<Document>, embed: string -> Embedding): IndexRunResult
    decreases |transcripts|
  {
    if transcripts == [] then IndexRunResult(entries, [], Completed)
    else
      match TranscriptVectors(transcripts[0], split, embed)
      case Failure(e) => IndexRunResult(entries, [], Aborted(e))
      case Success(vectors) =>
        var rest := IndexRun(UpsertAll(entries, vectors), transcripts[1..], split, embed);
        IndexRunResult(rest.entries, [vectors] + rest.batches, rest.outcome)
  }

  /**
    A run sends one request per transcript, in order, holding that
    transcript's vectors, up to the first transcript that raises; it completes
    only when none raises, and an aborted run ends with that transcript's error.
   */
  lemma {:induction false} IndexRunBatches(entries: Entries, transcripts: seq<Document>, split: Document -> seq<Document>, embed: string -> Embedding)
    ensures var r := IndexRun(entries, transcripts, split, embed);
      && |r.batches| <= |transcripts|
      && (forall i :: 0 <= i < |r.batches| ==> TranscriptVectors(transcripts[i], split, embed) == Success(r.batches[i]))
      && (r.outcome.Completed? ==> |r.batches| == |transcripts|)
      && (r.outcome.Aborted? ==>
            |r.batches| < |transcripts| && TranscriptVectors(transcripts[|r.batches|], split, embed) == Failure(r.outcome.error))
    decreases |transcripts|
  {
    if transcripts != [] {
      var first := TranscriptVectors(transcripts[0], split, embed);
      if first.Success? {
        var rest := IndexRun(UpsertAll(entries, first.value), transcripts[1..], split, embed);
        IndexRunBatches(UpsertAll(entries, first.value), transcripts[1..], split, embed);
        assert forall i :: 0 < i < |transcripts| ==> transcripts[1..][i - 1] == transcripts[i];
      }
    }
  }

  /** A run leaves the namespace as one upsert of all its batches, in order, would. */
  lemma {:induction false} IndexRunEntries(entries: Entries, transcripts: seq<Document>, split: Document -> seq<Document>, embed: string -> Embedding)
    ensures var r := IndexRun(entries, transcripts, split, embed);
      r.entries == UpsertAll(entries, Concat(r.batches))
    decreases |transcripts|
  {
    if transcripts != [] {
      var t := TranscriptVectors(transcripts[0], split, embed);
      if t.Success? {
        var rest := IndexRun(UpsertAll(entries, t.value), transcripts[1..], split, embed);
        IndexRunEntries(UpsertAll(entries, t.value), transcripts[1..], split, embed);
        ConcatAppend([t.value], rest.batches);
        ConcatSingle(t.value);
        UpsertAllAppend(entries, t.value, Concat(rest.batches));
      }
    }
  }

  /** What a run writes and how it ends do not depend on what the namespace already holds. */
  lemma {:induction false} IndexRunIndependent(e1: Entries, e2: Entries, transcripts: seq<Document>,
                                               split: Document -> seq<Document>, embed: string -> Embedding)
    ensures IndexRun(e1, transcripts, split, embed).batches == IndexRun(e2, transcripts, split, embed).batches
    ensures IndexRun(e1, transcripts, split, embed).outcome == IndexRun(e2, transcripts, split, embed).outcome
    decreases |transcripts|
  {
    if transcripts != [] {
      var first := TranscriptVectors(transcripts[0], split, embed);
      if first.Success? {
        IndexRunIndependent(UpsertAll(e1, first.value), UpsertAll(e2, first.value), transcripts[1..], split, embed);
      }
    }
  }

  /**
    Running `index_transcripts` again on the same transcripts repeats the same
    requests and leaves the namespace exactly as the first run left it: the
    same key set, the same records, no growth.
   */
  lemma IndexRunIdempotent(entries: Entries, transcripts: seq<Document>,
                           split: Document -> seq<Document>, embed: string -> Embedding)
    ensures var first := IndexRun(entries, transcripts, split, embed);
      IndexRun(first.entries, transcripts, split, embed) == first
  {
    var first := IndexRun(entries, transcripts, split, embed);
    var second := IndexRun(first.entries, transcripts, split, embed);
    IndexRunIndependent(entries, first.entries, transcripts, split, embed);
    IndexRunEntries(entries, transcripts, split, embed);
    IndexRunEntries(first.entries, transcripts, split, embed);
    UpsertAllIdempotent(entries, Concat(first.batches));
  }

  lemma {:induction false} InConcat<T>(ss: seq<seq<T>>, i: nat, j: nat)
    requires i < |ss| && j < |ss[i]|
    ensures ss[i][j] in Concat(ss)
  {
    if i > 0 {
      InConcat(ss[1..], i - 1, j);
      assert ss[1..][i - 1] == ss[i];
    }
  }

  /**
    After a run, the namespace holds the old keys plus every id the run wrote;
    a key the run did not write keeps its record; every written id is present.
   */
  lemma IndexRunKeys(entries: Entries, transcripts: seq<Document>,
                     split: Document -> seq<Document>, embed: string -> Embedding)
    ensures var r := IndexRun(entries, transcripts, split, embed);
      && r.entries.Keys == entries.Keys + IdSet(Concat(r.batches))
      && (forall k :: k in entries && k !in IdSet(Concat(r.batches)) ==> r.entries[k] == entries[k])
      && (forall i, j :: 0 <= i < |r.batches| && 0 <= j < |r.batches[i]| ==> r.batches[i][j].id in r.entries)
  {
    var r := IndexRun(entries, transcripts, split, embed);
    IndexRunEntries(entries, transcripts, split, embed);
    UpsertAllSpec(entries, Concat(r.batches));
    forall i, j | 0 <= i < |r.batches| && 0 <= j < |r.batches[i]| ensures r.batches[i][j].id in r.entries {
      InConcat(r.batches, i, j);
      var all := Concat(r.batches);
      var p :| 0 <= p < |all| && all[p] == r.batches[i][j];
      assert all[p].id in IdSet(all);
    }
  }

  /**
    A video indexed by a run is skipped by every later `transcripts`: once a
    transcript with source `s` is upserted and its first chunk carries that
    source, `s#chunk0` is present, so `s` is never pending again. That this is
    the video id the dedup check uses depends on the loader setting `source`
    to the video id.
   */
  lemma IndexedVideoIsSkipped(entries: Entries, transcripts: seq<Document>,
                              split: Document -> seq<Document>, embed: string -> Embedding,
                              i: nat, videoIds: seq<string>)
    requires i < |transcripts| && i < |IndexRun(entries, transcripts, split, embed).batches|
    requires SourceKey in transcripts[i].metadata
    requires var chunks := split(transcripts[i]);
      chunks != [] && SourceKey in chunks[0].metadata
      && chunks[0].metadata[SourceKey] == transcripts[i].metadata[SourceKey]
    ensures var r := IndexRun(entries, transcripts, split, embed);
      && DedupKey(transcripts[i].metadata[SourceKey]) in r.entries
      && transcripts[i].metadata[SourceKey] !in PendingVideos(r.entries, videoIds)
  {
    var r := IndexRun(entries, transcripts, split, embed);
    var s := transcripts[i].metadata[SourceKey];
    var chunks := split(transcripts[i]);
    IndexRunBatches(entries, transcripts, split, embed);
    BuildVectorsFromSpec(chunks, 0, embed);
    assert TranscriptVectors(transcripts[i], split, embed) == Success(r.batches[i]);
    assert IsChunkVector(r.batches[i][0], chunks[0], 0, embed);
    IndexRunKeys(entries, transcripts, split, embed);
    PendingVideosMembers(r.entries, videoIds);
    assert r.batches[i][0].id == DedupKey(s);
  }

  /** The invariant of the loop of `index_transcripts`: what is left of the run is the run of what is left. */
  ghost predicate RunContinues(run: IndexRunResult, done: seq<seq<Vector>>, entries: Entries, rest: seq<Document>,
                               split: Document -> seq<Document>, embed: string -> Embedding)
  {
    var r := IndexRun(entries, rest, split, embed);
    run.entries == r.entries && run.outcome == r.outcome && run.batches == done + r.batches
  }

  /** Upserting the first remaining transcript keeps the loop invariant. */
  lemma RunAdvance(run: IndexRunResult, done: seq<seq<Vector>>, entries: Entries, rest: seq<Document>,
                   split: Document -> seq<Document>, embed: string -> Embedding, vectors: seq<Vector>)
    requires rest != [] && TranscriptVectors(rest[0], split, embed) == Success(vectors)
    requires RunContinues(run, done, entries, rest, split, embed)
    ensures RunContinues(run, done + [vectors], UpsertAll(entries, vectors), rest[1..], split, embed)
  {
    var r := IndexRun(UpsertAll(entries, vectors), rest[1..], split, embed);
    assert IndexRun(entries, rest, split, embed) == IndexRunResult(r.entries, [vectors] + r.batches, r.outcome);
    assert done + ([vectors] + r.batches) == (done + [vectors]) + r.batches;
  }

  /** A transcript that raises ends the run with the namespace as it is. */
  lemma RunAbort(run: IndexRunResult, done: seq<seq<Vector>>, entries: Entries, rest: seq<Document>,
                 split: Document -> seq<Document>, embed: string -> Embedding)
    requires rest != [] && TranscriptVectors(rest[0], split, embed).Failure?
    requires RunContinues(run, done, entries, rest, split, embed)
    ensures run == IndexRunResult(entries, done, Aborted(TranscriptVectors(rest[0], split, embed).error))
  {
  }

  /** A run over no transcripts changes nothing. */
  lemma RunEnd(run: IndexRunResult, done: seq<seq<Vector>>, entries: Entries,
               split: Document -> seq<Document>, embed: string -> Embedding)
    requires RunContinues(run, done, entries, [], split, embed)
    ensures run == IndexRunResult(entries, done, Completed)
  {
  }

  /** The upsert requests of a run into namespace `ns`, one per batch. */
  function Requests(ns: string, batches: seq<seq<Vector>>): seq<UpsertRequest>
  {
    seq(|batches|, i requires 0 <= i < |batches| => UpsertRequest(ns, batches[i]))
  }

  /**
    The `index_transcripts` asset: the persona's namespace ends as the
    reference run says, the service received exactly the run's requests, all
    into `UserHandle`, and no other namespace changed.
   */
  method IndexTranscripts(store: PineconeResource, transcripts: seq<Document>, split: Document -> seq<Document>, embed: string -> Embedding)
    returns (outcome: Outcome)
    modifies store
    ensures var run := IndexRun(old(store.Namespace(UserHandle)), transcripts, split, embed);
      && store.Namespace(UserHandle) == run.entries
      && outcome == run.outcome
      && store.requests == old(store.requests) + Requests(UserHandle, run.batches)
    ensures forall ns :: ns != UserHandle ==> store.Namespace(ns) == old(store.Namespace(ns))
  {
    ghost var run := IndexRun(store.Namespace(UserHandle), transcripts, split, embed);
    ghost var batches: seq<seq<Vector>> := [];
    assert transcripts[0..] == transcripts;
    var i := 0;
    while i < |transcripts|
      invariant 0 <= i <= |transcripts|
      invariant RunContinues(run, batches, store.Namespace(UserHandle), transcripts[i..], split, embed)
      invariant store.requests == old(store.requests) + Requests(UserHandle, batches)
      invariant forall ns :: ns != UserHandle ==> store.Namespace(ns) == old(store.Namespace(ns))
    {
      var transcript := transcripts[i];
      ghost var entries := store.Namespace(UserHandle);
      assert transcripts[i..][0] == transcript;
      assert transcripts[i..][1..] == transcripts[i + 1..];
      if SourceKey !in transcript.metadata {
        RunAbort(run, batches, entries, transcripts[i..], split, embed);
        outcome := Aborted(KeyError(SourceKey));
        return;
      }
      var docChunks := split(transcript);
      var vectorsToInsert := BuildVectors(docChunks, embed);
      if vectorsToInsert.Failure? {
        RunAbort(run, batches, entries, transcripts[i..], split, embed);
        outcome := Aborted(vectorsToInsert.error);
        return;
      }
      RunAdvance(run, batches, entries, transcripts[i..], split, embed, vectorsToInsert.value);
      store.Upsert(vectorsToInsert.value, UserHandle);
      assert store.Namespace(UserHandle) == UpsertAll(entries, vectorsToInsert.value);
      RequestsAppend(UserHandle, batches, vectorsToInsert.value);
      batches := batches + [vectorsToInsert.value];
      i := i + 1;
    }
    assert transcripts[i..] == [];
    RunEnd(run, batches, store.Namespace(UserHandle), split, embed);
    outcome := Completed;
  }

  lemma RequestsAppend(ns: string, batches: seq<seq<Vector>>, vectors: seq<Vector>)
    ensures Requests(ns, batches + [vectors]) == Requests(ns, batches) + [UpsertRequest(ns, vectors)]
  {
  }
}
