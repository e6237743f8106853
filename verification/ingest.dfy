/**
 * Ingestion of the knowledge base (`ingest_documents`): each Markdown file
 * is read, skipped when blank, cut into chunks, and every chunk whose
 * embedding succeeds is upserted under the id `<basename>_<index>` with its
 * source path and index as metadata. A failure in one file is logged and
 * the next file is processed. The store is a map from id to entry; the
 * embedder, the file reads and the upsert's failures are parameters.
 */
module Ingest {
  import opened Prelude
  import opened Text
  import Paths
  import Chunker
  import Tools

  /** A chunk's metadata: the file it came from and its position among the file's chunks. */
  datatype Metadata = Metadata(source: string, chunkIndex: nat)

  /** What the store keeps under an id. */
  datatype Entry = Entry(embedding: Tools.Embedding, document: string, metadata: Metadata)

  type Store = map<string, Entry>

  /** The four parallel lists passed to one upsert. */
  datatype Batch = Batch(ids: seq<string>, embeddings: seq<Tools.Embedding>, documents: seq<string>, metadatas: seq<Metadata>)

  /** The lists of a batch have one element per chunk. */
  predicate Aligned(b: Batch) {
    |b.ids| == |b.embeddings| == |b.documents| == |b.metadatas|
  }

  /** The id of chunk `i` of a file named `name`. */
  function ChunkName(name: string, i: nat): string {
    name + "_" + NatToString(i)
  }

  /** The id of chunk `i` of the file at `path`: its basename, an underscore and the index. */
  function ChunkId(path: string, i: nat): string {
    ChunkName(Paths.Basename(path), i)
  }

  /** Two chunk ids for one name are equal exactly when their indices are. */
  lemma ChunkNameInjective(name: string, i: nat, j: nat)
    ensures ChunkName(name, i) == ChunkName(name, j) <==> i == j
  {
    var prefix := name + "_";
    if ChunkName(name, i) == ChunkName(name, j) {
      assert ChunkName(name, i)[|prefix|..] == NatToString(i);
      assert ChunkName(name, j)[|prefix|..] == NatToString(j);
      NatToStringInjective(i, j);
    }
  }

  /** Two chunks of one file share an id exactly when they are the same chunk. */
  lemma ChunkIdInjective(path: string, i: nat, j: nat)
    ensures ChunkId(path, i) == ChunkId(path, j) <==> i == j
  {
    ChunkNameInjective(Paths.Basename(path), i, j);
  }

  // ---------------------------------------------------------------------------
  // Building a file's batch
  // ---------------------------------------------------------------------------

  /** A chunk is kept when its embedding is not empty. */
  predicate Embedded(chunks: seq<string>, embed: string -> Tools.Embedding, i: nat)
    requires i < |chunks|
  {
    embed(chunks[i]) != []
  }

  /** The indices, from `from` on, of the chunks that are kept, in increasing order. */
  function Survivors(chunks: seq<string>, embed: string -> Tools.Embedding, from: nat): (r: seq<nat>)
    requires from <= |chunks|
    ensures forall k :: 0 <= k < |r| ==> from <= r[k] < |chunks| && Embedded(chunks, embed, r[k])
    decreases |chunks| - from
  {
    if from == |chunks| then []
    else
      var rest := Survivors(chunks, embed, from + 1);
      if Embedded(chunks, embed, from) then [from] + rest else rest
  }

  /** The survivors come in chunk order. */
  lemma {:induction false} SurvivorsIncreasing(chunks: seq<string>, embed: string -> Tools.Embedding, from: nat,
                                               k: nat, l: nat)
    requires from <= |chunks| && k < l < |Survivors(chunks, embed, from)|
    ensures Survivors(chunks, embed, from)[k] < Survivors(chunks, embed, from)[l]
    decreases |chunks| - from
  {
    var idx := Survivors(chunks, embed, from);
    var tail := Survivors(chunks, embed, from + 1);
    assert from < |chunks|;
    SurvivorsStep(chunks, embed, from);
    if embed(chunks[from]) == [] {
      assert idx == tail;
      SurvivorsIncreasing(chunks, embed, from + 1, k, l);
    } else {
      assert idx == [from] + tail;
      if k == 0 {
        assert from + 1 <= tail[l - 1];
      } else {
        SurvivorsIncreasing(chunks, embed, from + 1, k - 1, l - 1);
      }
    }
  }

  /** The survivors from `from` on: `from` itself if it embeds, then the survivors after it. */
  lemma SurvivorsStep(chunks: seq<string>, embed: string -> Tools.Embedding, from: nat)
    requires from < |chunks|
    ensures Survivors(chunks, embed, from)
            == (if embed(chunks[from]) != [] then [from] else []) + Survivors(chunks, embed, from + 1)
  {
  }

  /** No chunk that embeds is missing from the survivors. */
  lemma {:induction false} SurvivorsComplete(chunks: seq<string>, embed: string -> Tools.Embedding, from: nat, i: nat)
    requires from <= i < |chunks| && Embedded(chunks, embed, i)
    ensures i in Survivors(chunks, embed, from)
    decreases |chunks| - from
  {
    if from < i {
      SurvivorsComplete(chunks, embed, from + 1, i);
    }
  }

  /** Entry `k` of the batch is chunk `i`: its id, embedding, text and metadata. */
  predicate EntryOf(path: string, name: string, chunks: seq<string>, embed: string -> Tools.Embedding, b: Batch, k: nat, i: nat)
    requires Aligned(b) && k < |b.ids| && i < |chunks|
  {
    && b.ids[k] == ChunkName(name, i)
    && b.embeddings[k] == embed(chunks[i])
    && b.documents[k] == chunks[i]
    && b.metadatas[k] == Metadata(path, i)
  }

  /** The batch for the chunks from `from` on: one entry per surviving chunk. */
  function BatchFrom(path: string, name: string, chunks: seq<string>, embed: string -> Tools.Embedding, from: nat): (b: Batch)
    requires from <= |chunks|
    ensures Aligned(b)
    ensures |b.ids| == |Survivors(chunks, embed, from)|
    decreases |chunks| - from
  {
    if from == |chunks| then Batch([], [], [], [])
    else
      var rest := BatchFrom(path, name, chunks, embed, from + 1);
      SurvivorsStep(chunks, embed, from);
      if embed(chunks[from]) == [] then rest
      else Prepend(path, name, chunks, embed, from, rest)
  }

  /** Chunk `from` placed before a batch. */
  function Prepend(path: string, name: string, chunks: seq<string>, embed: string -> Tools.Embedding, from: nat, rest: Batch): (b: Batch)
    requires from < |chunks| && Aligned(rest)
    ensures Aligned(b) && |b.ids| == |rest.ids| + 1
    ensures EntryOf(path, name, chunks, embed, b, 0, from)
  {
    Batch([ChunkName(name, from)] + rest.ids, [embed(chunks[from])] + rest.embeddings,
          [chunks[from]] + rest.documents, [Metadata(path, from)] + rest.metadatas)
  }

  /** Prepending a chunk moves every entry one place on. */
  lemma PrependKeepsEntry(path: string, name: string, chunks: seq<string>, embed: string -> Tools.Embedding, from: nat,
                          rest: Batch, k: nat, i: nat)
    requires from < |chunks| && Aligned(rest) && 1 <= k <= |rest.ids| && i < |chunks|
    requires EntryOf(path, name, chunks, embed, rest, k - 1, i)
    ensures EntryOf(path, name, chunks, embed, Prepend(path, name, chunks, embed, from, rest), k, i)
  {
  }

  /** Entry `k` of the batch from `from` on is the `k`-th surviving chunk. */
  lemma {:induction false} BatchFromEntry(path: string, name: string, chunks: seq<string>, embed: string -> Tools.Embedding,
                                          from: nat, k: nat)
    requires from <= |chunks| && k < |BatchFrom(path, name, chunks, embed, from).ids|
    ensures EntryOf(path, name, chunks, embed, BatchFrom(path, name, chunks, embed, from), k, Survivors(chunks, embed, from)[k])
    decreases |chunks| - from
  {
    assert from < |chunks|;
    var b := BatchFrom(path, name, chunks, embed, from);
    var rest := BatchFrom(path, name, chunks, embed, from + 1);
    var idx := Survivors(chunks, embed, from);
    var tail := Survivors(chunks, embed, from + 1);
    SurvivorsStep(chunks, embed, from);
    if embed(chunks[from]) == [] {
      assert b == rest && idx == tail;
      BatchFromEntry(path, name, chunks, embed, from + 1, k);
    } else {
      assert b == Prepend(path, name, chunks, embed, from, rest);
      assert idx == [from] + tail;
      if k > 0 {
        BatchFromEntry(path, name, chunks, embed, from + 1, k - 1);
        assert idx[k] == tail[k - 1];
        PrependKeepsEntry(path, name, chunks, embed, from, rest, k, idx[k]);
      } else {
        assert idx[0] == from;
      }
    }
  }

  /**
   * The batch of a file: one entry per chunk whose embedding succeeded,
   * in chunk order, keeping the chunk's original index (dropped chunks
   * leave gaps in the numbering).
   */
  function BuildBatch(path: string, chunks: seq<string>, embed: string -> Tools.Embedding): (b: Batch)
    ensures Aligned(b)
    ensures |b.ids| == |Survivors(chunks, embed, 0)|
    ensures forall k :: 0 <= k < |b.ids| ==> EntryOf(path, Paths.Basename(path), chunks, embed, b, k, Survivors(chunks, embed, 0)[k])
  {
    var b := BatchFrom(path, Paths.Basename(path), chunks, embed, 0);
    forall k | 0 <= k < |b.ids| ensures EntryOf(path, Paths.Basename(path), chunks, embed, b, k, Survivors(chunks, embed, 0)[k]) {
      BatchFromEntry(path, Paths.Basename(path), chunks, embed, 0, k);
    }
    b
  }

  /** A batch's ids are pairwise distinct. */
  lemma BatchIdsDistinct(path: string, chunks: seq<string>, embed: string -> Tools.Embedding)
    ensures var b := BuildBatch(path, chunks, embed);
            forall k, l :: 0 <= k < l < |b.ids| ==> b.ids[k] != b.ids[l]
  {
    var b := BuildBatch(path, chunks, embed);
    var idx := Survivors(chunks, embed, 0);
    var name := Paths.Basename(path);
    forall k, l | 0 <= k < l < |b.ids| ensures b.ids[k] != b.ids[l] {
      assert EntryOf(path, name, chunks, embed, b, k, idx[k]);
      assert EntryOf(path, name, chunks, embed, b, l, idx[l]);
      SurvivorsIncreasing(chunks, embed, 0, k, l);
      ChunkNameInjective(name, idx[k], idx[l]);
      assert ChunkName(name, idx[k]) != ChunkName(name, idx[l]);
    }
  }

  /** The batch is empty exactly when every chunk's embedding failed. */
  lemma EmptyBatchIffNoneEmbedded(path: string, chunks: seq<string>, embed: string -> Tools.Embedding)
    ensures |BuildBatch(path, chunks, embed).ids| == 0
            <==> forall i :: 0 <= i < |chunks| ==> !Embedded(chunks, embed, i)
  {
    var idx := Survivors(chunks, embed, 0);
    if |idx| > 0 {
      assert Embedded(chunks, embed, idx[0]);
    }
    forall i | 0 <= i < |chunks| && Embedded(chunks, embed, i) ensures |idx| > 0 {
      SurvivorsComplete(chunks, embed, 0, i);
    }
  }

  // ---------------------------------------------------------------------------
  // Upsert
  // ---------------------------------------------------------------------------

  /** `collection.upsert`: each id in turn is set to its entry, inserting or replacing. */
  function Upsert(store: Store, b: Batch): (r: Store)
    requires Aligned(b)
    ensures r.Keys == store.Keys + (set id | id in b.ids)
    ensures forall key :: key in store && key !in b.ids ==> r[key] == store[key]
    decreases |b.ids|
  {
    if |b.ids| == 0 then store
    else
      var rest := Batch(b.ids[1..], b.embeddings[1..], b.documents[1..], b.metadatas[1..]);
      var r := Upsert(store[b.ids[0] := Entry(b.embeddings[0], b.documents[0], b.metadatas[0])], rest);
      assert b.ids == [b.ids[0]] + rest.ids;
      r
  }

  /** With distinct ids, every entry of the batch is stored under its id. */
  lemma {:induction false} UpsertStoresEntries(store: Store, b: Batch)
    requires Aligned(b)
    requires forall k, l :: 0 <= k < l < |b.ids| ==> b.ids[k] != b.ids[l]
    ensures forall k :: 0 <= k < |b.ids| ==>
              Upsert(store, b)[b.ids[k]] == Entry(b.embeddings[k], b.documents[k], b.metadatas[k])
    decreases |b.ids|
  {
    if |b.ids| > 0 {
      var e0 := Entry(b.embeddings[0], b.documents[0], b.metadatas[0]);
      var rest := Batch(b.ids[1..], b.embeddings[1..], b.documents[1..], b.metadatas[1..]);
      var s1 := store[b.ids[0] := e0];
      UpsertStoresEntries(s1, rest);
      assert b.ids[0] !in rest.ids by {
        forall k | 0 <= k < |rest.ids| ensures rest.ids[k] != b.ids[0] {
          assert rest.ids[k] == b.ids[k + 1];
        }
      }
      forall k | 0 <= k < |b.ids|
        ensures Upsert(store, b)[b.ids[k]] == Entry(b.embeddings[k], b.documents[k], b.metadatas[k])
      {
        if k > 0 {
          assert rest.ids[k - 1] == b.ids[k];
        }
      }
    }
  }

  // ---------------------------------------------------------------------------
  // One file
  // ---------------------------------------------------------------------------

  /**
   * A file as the ingestion loop meets it: its path, its text (`None` when
   * reading it raises, with that error), and the error (if any) the upsert
   * of its batch raises.
   */
  datatype SourceFile = SourceFile(path: string, content: Option<string>, readError: string,
                                   upsertFault: Option<string>)

  /** What happened to a file. */
  datatype Status = Blank | NothingEmbedded | Upserted(count: nat) | Failed(error: string)

  datatype FileOutcome = FileOutcome(status: Status, store: Store)

  /** The chunks of a file's text with the default window. */
  function FileChunks(content: string): seq<string> {
    Chunker.ChunkText(content, Chunker.DefaultChunkSize, Chunker.DefaultOverlap)
  }

  /** The body of the per-file loop of `ingest_documents`. */
  function IngestFile(store: Store, f: SourceFile, embed: string -> Tools.Embedding): (r: FileOutcome)
    ensures f.content.None? ==> r == FileOutcome(Failed(f.readError), store)
    ensures f.content.Some? && IsBlank(f.content.value) ==> r == FileOutcome(Blank, store)
    ensures f.content.Some? && !IsBlank(f.content.value) ==>
              var b := BuildBatch(f.path, FileChunks(f.content.value), embed);
              && (|b.ids| == 0 ==> r == FileOutcome(NothingEmbedded, store))
              && (|b.ids| > 0 && f.upsertFault.Some? ==> r == FileOutcome(Failed(f.upsertFault.value), store))
              && (|b.ids| > 0 && f.upsertFault.None? ==> r == FileOutcome(Upserted(|b.ids|), Upsert(store, b)))
    ensures !r.status.Upserted? ==> r.store == store
  {
    match f.content
    case None => FileOutcome(Failed(f.readError), store)
    case Some(content) =>
      StripEmptyIffBlank(content);
      if Strip(content) == [] then FileOutcome(Blank, store)
      else
        var b := BuildBatch(f.path, FileChunks(content), embed);
        if |b.ids| == 0 then FileOutcome(NothingEmbedded, store)
        else match f.upsertFault
          case Some(e) => FileOutcome(Failed(e), store)
          case None => FileOutcome(Upserted(|b.ids|), Upsert(store, b))
  }

  /**
   * After a successful upsert every surviving chunk is stored under its id
   * with its embedding, its text and its metadata; every other id keeps what
   * it had.
   */
  lemma IngestedChunksStored(store: Store, f: SourceFile, embed: string -> Tools.Embedding, i: nat)
    requires IngestFile(store, f, embed).status.Upserted?
    requires f.content.Some? && i < |FileChunks(f.content.value)|
    requires Embedded(FileChunks(f.content.value), embed, i)
    ensures var chunks := FileChunks(f.content.value);
            var r := IngestFile(store, f, embed).store;
            && ChunkId(f.path, i) in r
            && r[ChunkId(f.path, i)] == Entry(embed(chunks[i]), chunks[i], Metadata(f.path, i))
  {
    var chunks := FileChunks(f.content.value);
    UpsertedFileStore(store, f, embed);
    BatchEntryStored(store, f.path, chunks, embed, i);
  }

  /** A file whose status is `Upserted` left the store with its batch upserted. */
  lemma UpsertedFileStore(store: Store, f: SourceFile, embed: string -> Tools.Embedding)
    requires IngestFile(store, f, embed).status.Upserted?
    ensures f.content.Some?
    ensures IngestFile(store, f, embed).store == Upsert(store, BuildBatch(f.path, FileChunks(f.content.value), embed))
  {
    assert f.content.Some? && !IsBlank(f.content.value);
    var b := BuildBatch(f.path, FileChunks(f.content.value), embed);
    assert |b.ids| > 0 && f.upsertFault.None?;
  }

  /** Upserting a file's batch stores each chunk that embeds under its id. */
  lemma BatchEntryStored(store: Store, path: string, chunks: seq<string>, embed: string -> Tools.Embedding, i: nat)
    requires i < |chunks| && Embedded(chunks, embed, i)
    ensures var r := Upsert(store, BuildBatch(path, chunks, embed));
            && ChunkId(path, i) in r
            && r[ChunkId(path, i)] == Entry(embed(chunks[i]), chunks[i], Metadata(path, i))
  {
    var b := BuildBatch(path, chunks, embed);
    var idx := Survivors(chunks, embed, 0);
    BatchIdsDistinct(path, chunks, embed);
    UpsertStoresEntries(store, b);
    SurvivorsComplete(chunks, embed, 0, i);
    var k :| 0 <= k < |idx| && idx[k] == i;
    assert EntryOf(path, Paths.Basename(path), chunks, embed, b, k, i);
    assert b.ids[k] in b.ids;
  }

  // ---------------------------------------------------------------------------
  // All files
  // ---------------------------------------------------------------------------

  /** The per-file loop: each file is processed on the store the previous one left. */
  function IngestFiles(store: Store, files: seq<SourceFile>, embed: string -> Tools.Embedding): Store
    decreases |files|
  {
    if |files| == 0 then store
    else IngestFiles(IngestFile(store, files[0], embed).store, files[1..], embed)
  }

  /** `ingest_documents`: nothing happens when the store cannot be opened. */
  function IngestDocuments(store: Store, connected: bool, files: seq<SourceFile>,
                           embed: string -> Tools.Embedding): (r: Store)
    ensures !connected ==> r == store
    ensures connected ==> r == IngestFiles(store, files, embed)
  {
    if connected then IngestFiles(store, files, embed) else store
  }

  /** Processing two lists of files is processing their concatenation. */
  lemma {:induction false} IngestFilesConcat(store: Store, a: seq<SourceFile>, b: seq<SourceFile>,
                                             embed: string -> Tools.Embedding)
    ensures IngestFiles(store, a + b, embed) == IngestFiles(IngestFiles(store, a, embed), b, embed)
    decreases |a|
  {
    if |a| == 0 {
      assert a + b == b;
    } else {
      assert (a + b)[0] == a[0];
      assert (a + b)[1..] == a[1..] + b;
      IngestFilesConcat(IngestFile(store, a[0], embed).store, a[1..], b, embed);
    }
  }

  /**
   * Error isolation: a file that fails changes nothing and does not stop
   * the loop, so the result is as if the file were not there; what earlier
   * files stored is kept.
   */
  lemma FailedFileIsSkipped(store: Store, files: seq<SourceFile>, j: nat, embed: string -> Tools.Embedding)
    requires j < |files|
    requires !IngestFile(IngestFiles(store, files[..j], embed), files[j], embed).status.Upserted?
    ensures IngestFiles(store, files, embed) == IngestFiles(store, files[..j] + files[j + 1..], embed)
  {
    var rest := files[j + 1..];
    var mid := IngestFiles(store, files[..j], embed);
    assert files == files[..j] + ([files[j]] + rest);
    IngestFilesConcat(store, files[..j], [files[j]] + rest, embed);
    IngestFilesConcat(store, files[..j], rest, embed);
    IngestFilesCons(mid, files[j], rest, embed);
    assert IngestFile(mid, files[j], embed).store == mid;
  }

  /** One step of the loop: the first file, then the rest on the store it left. */
  lemma IngestFilesCons(store: Store, f: SourceFile, rest: seq<SourceFile>, embed: string -> Tools.Embedding)
    ensures IngestFiles(store, [f] + rest, embed) == IngestFiles(IngestFile(store, f, embed).store, rest, embed)
  {
    assert ([f] + rest)[1..] == rest;
  }

  /** The batch of a file with one chunk that embeds holds that chunk under index 0. */
  lemma SingleChunkBatch(path: string, content: string, embed: string -> Tools.Embedding)
    requires embed(content) != []
    ensures BuildBatch(path, [content], embed)
            == Batch([ChunkId(path, 0)], [embed(content)], [content], [Metadata(path, 0)])
  {
    SingleChunkBatchFrom(path, Paths.Basename(path), content, embed);
  }

  lemma SingleChunkBatchFrom(path: string, name: string, content: string, embed: string -> Tools.Embedding)
    requires embed(content) != []
    ensures BatchFrom(path, name, [content], embed, 0)
            == Batch([ChunkName(name, 0)], [embed(content)], [content], [Metadata(path, 0)])
  {
    assert BatchFrom(path, name, [content], embed, 1) == Batch([], [], [], []);
  }

  /** A short file whose one chunk embeds is stored as chunk 0 of its basename. */
  lemma SingleChunkFile(store: Store, path: string, content: string, embed: string -> Tools.Embedding)
    requires 0 < |content| <= Chunker.DefaultChunkSize && !IsBlank(content)
    requires embed(content) != []
    ensures IngestFile(store, SourceFile(path, Some(content), "", None), embed).store
            == store[ChunkId(path, 0) := Entry(embed(content), content, Metadata(path, 0))]
  {
    var f := SourceFile(path, Some(content), "", None);
    var e := Entry(embed(content), content, Metadata(path, 0));
    assert FileChunks(content) == [content];
    SingleChunkBatch(path, content, embed);
    var b := Batch([ChunkId(path, 0)], [embed(content)], [content], [Metadata(path, 0)]);
    assert f.content.value == content;
    assert BuildBatch(f.path, FileChunks(f.content.value), embed) == b;
    assert |b.ids| > 0;
    assert IngestFile(store, f, embed) == FileOutcome(Upserted(|b.ids|), Upsert(store, b));
    var rest := Batch([], [], [], []);
    assert b.ids[1..] == [] && b.embeddings[1..] == [] && b.documents[1..] == [] && b.metadatas[1..] == [];
    assert Upsert(store, b) == Upsert(store[ChunkId(path, 0) := e], rest);
  }

  /** Setting a key twice keeps the second value. */
  lemma UpdateTwice(m: Store, key: string, first: Entry, second: Entry)
    ensures m[key := first][key := second] == m[key := second]
  {
  }

  /** Two files are processed one after the other. */
  lemma IngestTwoFiles(store: Store, f1: SourceFile, f2: SourceFile, embed: string -> Tools.Embedding)
    ensures IngestFiles(store, [f1, f2], embed)
            == IngestFile(IngestFile(store, f1, embed).store, f2, embed).store
  {
    var s1 := IngestFile(store, f1, embed).store;
    assert [f1, f2][1..] == [f2];
    assert IngestFiles(s1, [f2], embed) == IngestFiles(IngestFile(s1, f2, embed).store, [], embed);
  }

  /** Two single-chunk files whose chunk ids coincide: the second one's entry is what remains. */
  lemma SecondSingleChunkWins(store: Store, f1: SourceFile, f2: SourceFile, embed: string -> Tools.Embedding)
    requires f1.content.Some? && f1.readError == "" && f1.upsertFault.None?
    requires f2.content.Some? && f2.readError == "" && f2.upsertFault.None?
    requires 0 < |f1.content.value| <= Chunker.DefaultChunkSize && !IsBlank(f1.content.value)
    requires 0 < |f2.content.value| <= Chunker.DefaultChunkSize && !IsBlank(f2.content.value)
    requires embed(f1.content.value) != [] && embed(f2.content.value) != []
    requires ChunkId(f1.path, 0) == ChunkId(f2.path, 0)
    ensures IngestFiles(store, [f1, f2], embed)
            == store[ChunkId(f2.path, 0) := Entry(embed(f2.content.value), f2.content.value, Metadata(f2.path, 0))]
  {
    var key := ChunkId(f2.path, 0);
    var e2 := Entry(embed(f2.content.value), f2.content.value, Metadata(f2.path, 0));
    assert f1 == SourceFile(f1.path, Some(f1.content.value), "", None);
    assert f2 == SourceFile(f2.path, Some(f2.content.value), "", None);
    SingleChunkFile(store, f1.path, f1.content.value, embed);
    var s1 := IngestFile(store, f1, embed).store;
    SingleChunkFile(s1, f2.path, f2.content.value, embed);
    var s2 := IngestFile(s1, f2, embed).store;
    var e1 := Entry(embed(f1.content.value), f1.content.value, Metadata(f1.path, 0));
    assert s1 == store[key := e1];
    assert s2 == s1[key := e2];
    UpdateTwice(store, key, e1, e2);
    IngestTwoFiles(store, f1, f2, embed);
  }

  /**
   * Ids are built from the basename only: a single-chunk file in another
   * directory with the same name replaces the first file's entry.
   */
  lemma SameBasenameOverwrites(embed: string -> Tools.Embedding, first: string, second: string)
    requires 0 < |first| <= Chunker.DefaultChunkSize && !IsBlank(first)
    requires 0 < |second| <= Chunker.DefaultChunkSize && !IsBlank(second)
    requires embed(first) != [] && embed(second) != []
    ensures var a := SourceFile("docs/a/readme.md", Some(first), "", None);
            var b := SourceFile("docs/b/readme.md", Some(second), "", None);
            IngestFiles(map[], [a, b], embed)
            == map["readme.md_0" := Entry(embed(second), second, Metadata("docs/b/readme.md", 0))]
  {
    Paths.BasenameAt("docs/a/readme.md", 7);
    Paths.BasenameAt("docs/b/readme.md", 7);
    assert NatToString(0) == "0";
    assert ChunkId("docs/a/readme.md", 0) == "readme.md_0";
    assert ChunkId("docs/b/readme.md", 0) == "readme.md_0";
    SecondSingleChunkWins(map[], SourceFile("docs/a/readme.md", Some(first), "", None),
                          SourceFile("docs/b/readme.md", Some(second), "", None), embed);
  }
}
