/**
 * The document-ingestion script: make sure the kNN index exists, read a text
 * file, wrap each chunk of it in a document carrying its position and the
 * file's name, and hand the documents to the bulk indexer. The cluster's set
 * of indices is the only state that outlives a run.
 */
module DocIngest {
  import opened Json
  import opened EmbeddingApi
  import opened BulkIndex

  const TextKey: string := "text"
  const MetadataKey: string := "metadata"
  const SourceKey: string := "source"
  const FilenameKey: string := "filename"
  const ChunkIndexKey: string := "chunk_index"
  const ChunkCountKey: string := "chunk_count"

  /** The settings and mapping create_index_if_not_exists creates the index with. */
  datatype IndexMapping = IndexMapping(
    shards: int, replicas: int, refreshInterval: string, knn: bool, efSearch: int,
    vectorField: string, dimension: int, methodName: string, spaceType: string, engine: string,
    efConstruction: int, m: int, textType: string, metadataType: string)

  const KnnIndexMapping: IndexMapping :=
    IndexMapping(1, 0, "60s", true, 32, VectorField, VectorDimension, "hnsw", "innerproduct", "faiss", 32, 16, "text", "object")

  /** The OpenSearch cluster, as far as this script changes it: which indices exist, with which mapping. */
  class SearchCluster {
    var indices: map<string, IndexMapping>

    constructor (existing: map<string, IndexMapping>)
      ensures indices == existing
    {
      indices := existing;
    }
  }

  /** A caller's metadata dict, which process_file may update in place. */
  class MetadataDict {
    var entries: Object

    constructor (entries: Object)
      ensures this.entries == entries
    {
      this.entries := entries;
    }

    /** The two key assignments process_file makes on the caller's dict. */
    method RecordSource(filePath: string)
      modifies this
      ensures entries == WithSource(old(entries), filePath)
    {
      var before := entries;
      entries := WithSource(before, filePath);
    }
  }

  datatype IngestResult = Ingested(result: BulkResult) | IngestFailed(message: string)

  predicate Succeeded(r: IngestResult) {
    r.Ingested? && r.result.BulkSucceeded?
  }

  /** os.path.basename: what follows the last '/'. */
  function Basename(path: string): (name: string)
    ensures '/' !in name
    ensures |name| <= |path| && name == path[|path| - |name|..]
    ensures |name| < |path| ==> path[|path| - |name| - 1] == '/'
  {
    if path == [] || path[|path| - 1] == '/' then []
    else Basename(path[..|path| - 1]) + [path[|path| - 1]]
  }

  /** Metadata with the file's path and basename recorded, overriding earlier `source` and `filename` values. */
  function WithSource(entries: Object, filePath: string): Object {
    Recorded(entries, Str(filePath), Str(Basename(filePath)))
  }

  function Recorded(entries: Object, source: Value, filename: Value): (m: Object)
    ensures m.Keys == entries.Keys + {SourceKey, FilenameKey}
    ensures m[SourceKey] == source && m[FilenameKey] == filename
    ensures m - {SourceKey, FilenameKey} == entries - {SourceKey, FilenameKey}
  {
    entries[SourceKey := source][FilenameKey := filename]
  }

  /** A chunk's metadata: the base metadata with its position; the position overrides same-named keys. */
  function ChunkMetadata(base: Object, index: int, count: int): Object {
    base[ChunkIndexKey := Int(index)][ChunkCountKey := Int(count)]
  }

  function ChunkDocument(chunk: string, base: Object, index: int, count: int): Document {
    map[TextKey := Str(chunk), MetadataKey := Obj(ChunkMetadata(base, index, count))]
  }

  function ChunkDocuments(chunks: seq<string>, base: Object): seq<Document> {
    seq(|chunks|, i requires 0 <= i < |chunks| => ChunkDocument(chunks[i], base, i, |chunks|))
  }

  /** The document-building loop of process_file. */
  method BuildChunkDocuments(chunks: seq<string>, base: Object) returns (documents: seq<Document>)
    ensures |documents| == |chunks|
    ensures forall i :: 0 <= i < |chunks| ==>
      && documents[i].Keys == {TextKey, MetadataKey}
      && documents[i][TextKey] == Str(chunks[i])
      && documents[i][MetadataKey] == Obj(ChunkMetadata(base, i, |chunks|))
    ensures documents == ChunkDocuments(chunks, base)
  {
    documents := [];
    for i := 0 to |chunks|
      invariant |documents| == i
      invariant forall j :: 0 <= j < i ==> documents[j] == ChunkDocument(chunks[j], base, j, |chunks|)
    {
      var doc := map[TextKey := Str(chunks[i]), MetadataKey := Obj(base[ChunkIndexKey := Int(i)][ChunkCountKey := Int(|chunks|)])];
      documents := documents + [doc];
    }
  }

  /**
   * What a chunk document says about itself: its position and the chunk count
   * (overriding the base), and every other base key unchanged.
   */
  lemma ChunkDocumentDescribesChunk(chunks: seq<string>, base: Object, i: int)
    requires 0 <= i < |chunks|
    ensures var md := ChunkDocuments(chunks, base)[i][MetadataKey].fields;
      && md.Keys == base.Keys + {ChunkIndexKey, ChunkCountKey}
      && md[ChunkIndexKey] == Int(i) && md[ChunkCountKey] == Int(|chunks|)
      && forall key :: key in base && key != ChunkIndexKey && key != ChunkCountKey ==> md[key] == base[key]
  {
  }

  /** Every chunk document has the text field, so none can fail for lacking it. */
  lemma ChunkDocumentsHaveText(chunks: seq<string>, base: Object)
    ensures forall d :: d in ChunkDocuments(chunks, base) ==> TextKey in d
  {
  }

  /** Documents that all carry the text field only ever fail on the embedding call. */
  lemma {:induction false} OnlyEmbeddingFailures(tools: EmbeddingTools, docs: seq<Document>, service: EmbeddingRequest -> ApiReply)
    requires forall d :: d in docs ==> TextKey in d
    ensures forall f :: f in FailedDocs(tools, docs, TextKey, service) ==> f.reason.EmbeddingError?
  {
    if docs != [] {
      var init := docs[..|docs| - 1];
      assert forall d :: d in init ==> d in docs;
      OnlyEmbeddingFailures(tools, init, service);
      assert docs[|docs| - 1] in docs;
    }
  }

  /**
   * What the bulk step reports for documents made from `chunks`: every chunk
   * is counted once, and a chunk only ever fails on the embedding call.
   */
  predicate ChunkOutcome(result: BulkResult, chunks: seq<string>) {
    && (result.BulkSucceeded? ==> result.processedCount + result.failedCount == |chunks|)
    && (result.NothingProcessed? ==> forall f :: f in result.allFailed ==> f.reason.EmbeddingError?)
    && (result.BulkSucceeded? && result.failedDocs.Some? ==>
          forall f :: f in result.failedDocs.value ==> f.reason.EmbeddingError?)
  }

  /**
   * The tail of process_file: build the chunk documents and bulk-index them;
   * `sent` is the bulk body handed to the store, if any.
   */
  method IndexChunks(tools: EmbeddingTools, chunks: seq<string>, base: Object, service: EmbeddingRequest -> ApiReply,
                     bulkApi: seq<BulkLine> -> Result<Value, string>)
    returns (result: BulkResult, sent: Option<seq<BulkLine>>)
    ensures ReportsBulk(tools, ChunkDocuments(chunks, base), TextKey, service, bulkApi, result, sent)
    ensures chunks == [] ==> result == NothingProcessed([]) && sent.None?
    ensures ChunkOutcome(result, chunks)
  {
    var documents := BuildChunkDocuments(chunks, base);
    ChunkDocumentsHaveText(chunks, base);
    OnlyEmbeddingFailures(tools, documents, service);
    result, sent := BulkIndexWithEmbeddings(tools, documents, TextKey, service, bulkApi);
  }

  class DocumentIngestor {
    const cluster: SearchCluster
    const indexName: string
    const apiToken: Option<string>
    const chunkSize: int
    const chunkOverlap: int

    constructor (cluster: SearchCluster, indexName: string, apiToken: Option<string>, chunkSize: int, chunkOverlap: int)
      ensures this.cluster == cluster && this.indexName == indexName && this.apiToken == apiToken
      ensures this.chunkSize == chunkSize && this.chunkOverlap == chunkOverlap
    {
      this.cluster := cluster;
      this.indexName := indexName;
      this.apiToken := apiToken;
      this.chunkSize := chunkSize;
      this.chunkOverlap := chunkOverlap;
    }

    /** The EmbeddingTools the ingestor builds over the same client, hence the same index. */
    function Tools(): EmbeddingTools {
      EmbeddingTools(indexName, apiToken)
    }

    /** create_index_if_not_exists: create the index with the kNN mapping only when it is absent. */
    method CreateIndexIfNotExists() returns (created: bool)
      modifies cluster
      ensures created <==> indexName !in old(cluster.indices)
      ensures created ==> cluster.indices == old(cluster.indices)[indexName := KnnIndexMapping]
      ensures !created ==> cluster.indices == old(cluster.indices)
    {
      if indexName !in cluster.indices {
        cluster.indices := cluster.indices[indexName := KnnIndexMapping];
        created := true;
      } else {
        created := false;
      }
    }

    /** A second call changes nothing: afterwards the index exists with what the first call left. */
    method CreateIndexTwice() returns (first: bool, second: bool)
      modifies cluster
      ensures !second
      ensures indexName in cluster.indices
      ensures cluster.indices == (if indexName in old(cluster.indices) then old(cluster.indices)
                                  else old(cluster.indices)[indexName := KnnIndexMapping])
      ensures first ==> cluster.indices[indexName] == KnnIndexMapping
      ensures forall n :: n in old(cluster.indices) ==> n in cluster.indices && cluster.indices[n] == old(cluster.indices)[n]
    {
      first := CreateIndexIfNotExists();
      second := CreateIndexIfNotExists();
    }

    /**
     * process_file. `read` is what reading the file gave (Failure carries the
     * exception text), `split` the text splitter applied with the ingestor's
     * chunk size and overlap, `service` the
     * embedding service and `bulkApi` the client's bulk call; `sent` is the bulk
     * body handed to the store, if any.
     */
    method ProcessFile(filePath: string, metadata: MetadataDict?, read: Result<string, string>,
                       split: (string, int, int) -> seq<string>, service: EmbeddingRequest -> ApiReply,
                       bulkApi: seq<BulkLine> -> Result<Value, string>)
      returns (r: IngestResult, sent: Option<seq<BulkLine>>)
      modifies cluster, metadata
      ensures indexName in cluster.indices
      ensures indexName !in old(cluster.indices) ==> cluster.indices == old(cluster.indices)[indexName := KnnIndexMapping]
      ensures indexName in old(cluster.indices) ==> cluster.indices == old(cluster.indices)
      ensures read.Failure? ==> r == IngestFailed(read.error)
      ensures metadata != null && (read.Failure? || old(metadata.entries) == map[]) ==>
        metadata.entries == old(metadata.entries)
      ensures metadata != null && read.Success? && old(metadata.entries) != map[] ==>
        metadata.entries == WithSource(old(metadata.entries), filePath)
      ensures read.Failure? ==> sent.None?
      ensures read.Success? ==>
        var given: Object := if metadata != null && old(metadata.entries) != map[] then old(metadata.entries) else map[];
        && r.Ingested?
        && ReportsBulk(Tools(), ChunkDocuments(split(read.value, chunkSize, chunkOverlap), WithSource(given, filePath)), TextKey, service, bulkApi, r.result, sent)
        && ChunkOutcome(r.result, split(read.value, chunkSize, chunkOverlap))
    {
      var given: Object := if metadata != null && metadata.entries != map[] then metadata.entries else map[];
      var _ := CreateIndexIfNotExists();
      if read.Failure? {
        return IngestFailed(read.error), None;
      }
      if metadata != null && metadata.entries != map[] {
        metadata.RecordSource(filePath);
      }
      var result;
      result, sent := IndexChunks(Tools(), split(read.value, chunkSize, chunkOverlap), WithSource(given, filePath), service, bulkApi);
      r := Ingested(result);
    }
  }

  /**
   * main, after argument parsing: exit 1 when the file does not exist,
   * otherwise process it without caller metadata and exit 0 exactly when
   * processing succeeded; `sent` is the bulk body handed to the store, if any.
   */
  method RunIngestion(fileExists: bool, ingestor: DocumentIngestor, filePath: string, read: Result<string, string>,
                      split: (string, int, int) -> seq<string>, service: EmbeddingRequest -> ApiReply,
                      bulkApi: seq<BulkLine> -> Result<Value, string>)
    returns (exitCode: int, result: Option<IngestResult>, sent: Option<seq<BulkLine>>)
    modifies ingestor.cluster
    ensures !fileExists ==> exitCode == 1 && result.None? && ingestor.cluster.indices == old(ingestor.cluster.indices)
    ensures fileExists ==> result.Some? && (exitCode == 0 <==> Succeeded(result.value))
    ensures fileExists ==> ingestor.indexName in ingestor.cluster.indices
    ensures fileExists ==> ingestor.cluster.indices == (if ingestor.indexName in old(ingestor.cluster.indices) then old(ingestor.cluster.indices)
                                                        else old(ingestor.cluster.indices)[ingestor.indexName := KnnIndexMapping])
    ensures fileExists && read.Failure? ==> result == Some(IngestFailed(read.error)) && sent.None?
    ensures fileExists && read.Success? ==>
      && result.Some? && result.value.Ingested?
      && ReportsBulk(ingestor.Tools(),
                     ChunkDocuments(split(read.value, ingestor.chunkSize, ingestor.chunkOverlap), WithSource(map[], filePath)),
                     TextKey, service, bulkApi, result.value.result, sent)
    ensures !fileExists ==> sent.None?
    ensures exitCode == 0 || exitCode == 1
  {
    if !fileExists {
      return 1, None, None;
    }
    var r;
    r, sent := ingestor.ProcessFile(filePath, null, read, split, service, bulkApi);
    result := Some(r);
    exitCode := if Succeeded(r) then 0 else 1;
  }
}
