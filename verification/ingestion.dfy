/**
 Document ingestion (`process_and_add_documents`): split the extracted text
 into chunks, name chunk `i` of a document `<prefix>_chunk_<i>`, and hand all
 chunks to the store in a single add request. The text splitter is an opaque
 parameter; only the configuration it is built with is fixed here.
 */
module Ingestion {
  import opened Decimal
  import opened VectorStore

  /** The parameters the text splitter is constructed with. */
  datatype SplitterConfig = SplitterConfig(chunkSize: nat, chunkOverlap: nat)

  const DocumentSplitter := SplitterConfig(500, 50)

  /** A text splitter: configuration and text in, chunks out. */
  type Splitter = (SplitterConfig, string) -> seq<string>

  const ChunkInfix := "_chunk_"

  function ChunkId(prefix: string, i: nat): (id: string)
    ensures |id| > |prefix| + |ChunkInfix|
    ensures id[..|prefix|] == prefix && id[|prefix|..|prefix| + |ChunkInfix|] == ChunkInfix
    ensures AllDigits(id[|prefix| + |ChunkInfix|..]) && ParseNat(id[|prefix| + |ChunkInfix|..]) == i
    ensures id[|prefix| + |ChunkInfix|] == '0' <==> i == 0
    ensures i == 0 ==> id == prefix + ChunkInfix + "0"
  {
    ParseNatToString(i);
    prefix + ChunkInfix + NatToString(i)
  }

  /** Two chunk ids with the same prefix agree exactly when their indices do. */
  lemma ChunkIdInjective(prefix: string, i: nat, j: nat)
    ensures ChunkId(prefix, i) == ChunkId(prefix, j) <==> i == j
  {
    var a, b := ChunkId(prefix, i), ChunkId(prefix, j);
    if a == b {
      var k := |prefix + ChunkInfix|;
      assert a[k..] == NatToString(i);
      assert b[k..] == NatToString(j);
      NatToStringInjective(i, j);
    }
  }

  /** The id list `[f"{prefix}_chunk_{i}" for i in range(n)]`. */
  function ChunkIds(prefix: string, n: nat): (ids: seq<string>)
    ensures |ids| == n
    ensures forall i :: 0 <= i < n ==> ids[i] == ChunkId(prefix, i)
    decreases n
  {
    if n == 0 then [] else ChunkIds(prefix, n - 1) + [ChunkId(prefix, n - 1)]
  }

  /** No two chunks of one ingestion share an id. */
  lemma ChunkIdsDistinct(prefix: string, n: nat)
    ensures DistinctIds(ChunkIds(prefix, n))
  {
    var ids := ChunkIds(prefix, n);
    forall i, j | 0 <= i < j < n
      ensures ids[i] != ids[j]
    {
      ChunkIdInjective(prefix, i, j);
    }
  }

  /** The add requests one ingestion issues: none for empty content or when
      the splitter yields no chunks, otherwise exactly one carrying every chunk. */
  function IngestCalls(content: string, prefix: string, split: Splitter): (calls: seq<AddCall>)
    ensures AllWellFormed(calls)
    ensures |calls| <= 1
    ensures calls != [] <==> content != [] && split(DocumentSplitter, content) != []
    ensures calls != [] ==> calls[0].documents == split(DocumentSplitter, content)
    ensures calls != [] ==> forall i :: 0 <= i < |calls[0].ids| ==> calls[0].ids[i] == ChunkId(prefix, i)
  {
    if content == [] then []
    else
      var chunks := split(DocumentSplitter, content);
      var ids := ChunkIds(prefix, |chunks|);
      if chunks == [] || ids == [] then [] else [AddCall(chunks, ids)]
  }

  /** Empty content never reaches the splitter: the outcome is the same whatever the splitter is. */
  lemma EmptyContentSkipsSplitter(prefix: string, f: Splitter, g: Splitter)
    ensures IngestCalls([], prefix, f) == IngestCalls([], prefix, g) == []
  {
  }

  /** `process_and_add_documents` applied to a store. */
  function ProcessAndAddDocuments(store: Store, content: string, prefix: string, split: Splitter): (r: Store)
    ensures content == [] ==> r == store
    ensures split(DocumentSplitter, content) == [] ==> r == store
    ensures |r| >= |store| && r[..|store|] == store
    ensures content != [] ==>
      var chunks := split(DocumentSplitter, content);
      && |r| == |store| + |chunks|
      && forall i :: 0 <= i < |chunks| ==> r[|store| + i] == Fragment(ChunkId(prefix, i), chunks[i])
  {
    var calls := IngestCalls(content, prefix, split);
    AddAllSingle(store, calls);
    AddAll(store, calls)
  }

  /** The fragments one ingestion adds carry pairwise distinct ids. */
  lemma IngestedIdsDistinct(store: Store, content: string, prefix: string, split: Splitter)
    ensures DistinctIds(Ids(ProcessAndAddDocuments(store, content, prefix, split))[|store|..])
  {
    var r := ProcessAndAddDocuments(store, content, prefix, split);
    var added := Ids(r)[|store|..];
    forall i, j | 0 <= i < j < |added|
      ensures added[i] != added[j]
    {
      assert added[i] == ChunkId(prefix, i);
      assert added[j] == ChunkId(prefix, j);
      ChunkIdInjective(prefix, i, j);
    }
  }
}
