/**
 * The serverless MCP server's knowledge-base tools: kNN search over the
 * OpenSearch vector index, the score-filtered similarity search built on it,
 * and indexing a text with its embedding. The OpenSearch client is an oracle:
 * `search` maps the query sent to the search outcome.
 */
module AosMcpServer {
  import opened Json
  import opened EmbeddingApi

  const TextField: string := "text"

  /** A raw search hit: `_id`, `_score` and `_source`, each possibly absent (None). */
  datatype Hit = Hit(id: Option<string>, score: Option<real>, source: Option<Object>)

  /** The record knn_search returns per hit. A null score stays None. */
  datatype SimpleResult = SimpleResult(id: Option<string>, score: Option<real>, text: Value, metadata: Object)

  /** The kNN query body: `size`, the knn clause on the vector field, and `_source.excludes`. */
  datatype KnnQuery = KnnQuery(size: int, field: string, vector: Embedding, k: int, excludes: seq<string>)

  /**
   * What search_documents reported: success with the hit list (a missing
   * `hits.hits` reads as no hits), or its own error record.
   */
  datatype SearchResponse = SearchSucceeded(hits: seq<Hit>) | SearchFailed(message: string)

  /** The error records the tools return. */
  datatype ToolError =
    | EmbeddingFailed(cause: EmbedError)
    | DimensionMismatch(expected: int, got: int)
    | SearchError(message: string)
    | InvalidMetadataJson
    | MetadataNotObject
    | ScoreNotComparable

  datatype KnnResult = KnnFound(results: seq<SimpleResult>, total: int) | KnnRejected(error: ToolError)

  /** The success record of text_similarity_search. */
  datatype SimilarityRecord = SimilarityRecord(queryText: string, results: seq<SimpleResult>, total: int, scoreThreshold: real, originalTotal: int)

  /** The store call index_text_with_embedding ends with. */
  datatype IndexCall = WriteDocument(documentId: string, document: Object) | IndexDocument(document: Object)

  function BuildKnnQuery(vector: Embedding, k: int): KnnQuery {
    KnnQuery(k, VectorField, vector, k, [VectorField])
  }

  /** The source without its text and vector fields. */
  function Metadata(source: Object): (m: Object)
    ensures m.Keys == source.Keys - {TextField, VectorField}
    ensures forall key :: key in m ==> m[key] == source[key]
  {
    map key | key in source && key != TextField && key != VectorField :: source[key]
  }

  function Simplify(hit: Hit): SimpleResult {
    var source := hit.source.GetOr(map[]);
    SimpleResult(hit.id, hit.score, if TextField in source then source[TextField] else Str(""), Metadata(source))
  }

  function SimplifyAll(hits: seq<Hit>): seq<SimpleResult> {
    seq(|hits|, i requires 0 <= i < |hits| => Simplify(hits[i]))
  }

  /**
   * A simplified result loses only the vector: from a hit whose source has a
   * text field and no vector, the metadata with the text put back is the source.
   */
  lemma SimplifyKeepsSource(hit: Hit)
    requires hit.source.Some? && TextField in hit.source.value && VectorField !in hit.source.value
    ensures Simplify(hit).metadata[TextField := Simplify(hit).text] == hit.source.value
    ensures Simplify(hit).id == hit.id && Simplify(hit).score == hit.score
    ensures VectorField !in Simplify(hit).metadata
  {
    var src := hit.source.value;
    var r := Simplify(hit).metadata[TextField := Simplify(hit).text];
    assert r.Keys == src.Keys;
  }

  /** knn_search. `search` stands for the OpenSearch client's search_documents. */
  method KnnSearch(vector: Embedding, k: int, search: (KnnQuery, int) -> SearchResponse)
    returns (r: KnnResult, issued: Option<KnnQuery>)
    ensures |vector| != VectorDimension ==> r == KnnRejected(DimensionMismatch(VectorDimension, |vector|)) && issued == None
    ensures |vector| == VectorDimension ==> issued == Some(BuildKnnQuery(vector, k))
    ensures issued.Some? ==>
      && issued.value.size == k && issued.value.k == k
      && issued.value.vector == vector && issued.value.field == VectorField
      && VectorField in issued.value.excludes
    ensures issued.Some? && search(issued.value, k).SearchFailed? ==>
      r == KnnRejected(SearchError(search(issued.value, k).message))
    ensures issued.Some? && search(issued.value, k).SearchSucceeded? ==>
      var hits := search(issued.value, k).hits;
      && r.KnnFound? && |r.results| == |hits| && r.total == |r.results|
      && forall i :: 0 <= i < |hits| ==> r.results[i] == Simplify(hits[i])
  {
    if |vector| != VectorDimension {
      return KnnRejected(DimensionMismatch(VectorDimension, |vector|)), None;
    }
    var query := BuildKnnQuery(vector, k);
    issued := Some(query);
    var response := search(query, k);
    if response.SearchFailed? {
      return KnnRejected(SearchError(response.message)), issued;
    }
    var hits := response.hits;
    var simplified: seq<SimpleResult> := [];
    for i := 0 to |hits|
      invariant |simplified| == i
      invariant forall j :: 0 <= j < i ==> simplified[j] == Simplify(hits[j])
    {
      simplified := simplified + [Simplify(hits[i])];
    }
    r := KnnFound(simplified, |simplified|);
  }

  /** Every result carries a score: the condition under which `>` does not raise. */
  predicate AllScored(rs: seq<SimpleResult>) {
    forall i :: 0 <= i < |rs| ==> rs[i].score.Some?
  }

  /** The results whose score is strictly above the threshold, in order. */
  function Above(rs: seq<SimpleResult>, threshold: real): (kept: seq<SimpleResult>)
    requires AllScored(rs)
    ensures |kept| <= |rs|
    ensures AllScored(kept)
    ensures forall i :: 0 <= i < |kept| ==> kept[i].score.value > threshold && kept[i] in rs
    ensures forall i :: 0 <= i < |rs| && rs[i].score.value > threshold ==> rs[i] in kept
  {
    if rs == [] then []
    else if rs[0].score.value > threshold then [rs[0]] + Above(rs[1..], threshold)
    else Above(rs[1..], threshold)
  }

  /** The complement: the results at or below the threshold. */
  function AtOrBelow(rs: seq<SimpleResult>, threshold: real): (dropped: seq<SimpleResult>)
    requires AllScored(rs)
    ensures forall i :: 0 <= i < |dropped| ==> dropped[i].score.Some? && dropped[i].score.value <= threshold
  {
    if rs == [] then []
    else if rs[0].score.value > threshold then AtOrBelow(rs[1..], threshold)
    else [rs[0]] + AtOrBelow(rs[1..], threshold)
  }

  /** `sub` is `s` with some elements dropped and the rest in their order. */
  ghost predicate IsSubsequence(sub: seq<SimpleResult>, s: seq<SimpleResult>)
    decreases |s|
  {
    if sub == [] then true
    else if s == [] then false
    else (sub[0] == s[0] && IsSubsequence(sub[1..], s[1..])) || IsSubsequence(sub, s[1..])
  }

  /**
   * The score filter of text_similarity_search. Comparing a null score with
   * the threshold raises TypeError, so one unscored result fails the filter.
   */
  function FilterByScore(rs: seq<SimpleResult>, threshold: real): (r: Result<seq<SimpleResult>, ToolError>)
    ensures r.Success? <==> AllScored(rs)
    ensures r.Failure? ==> r.error == ScoreNotComparable
  {
    if AllScored(rs) then Success(Above(rs, threshold)) else Failure(ScoreNotComparable)
  }

  /** The filter keeps the passing results in their original order. */
  lemma {:induction false} AboveIsSubsequence(rs: seq<SimpleResult>, threshold: real)
    requires AllScored(rs)
    ensures IsSubsequence(Above(rs, threshold), rs)
  {
    if rs != [] {
      AboveIsSubsequence(rs[1..], threshold);
      if rs[0].score.value <= threshold {
        var kept := Above(rs[1..], threshold);
        if kept != [] {
          assert IsSubsequence(kept, rs[1..]);
        }
      }
    }
  }

  /** Kept and dropped results together are exactly the input, counted with multiplicity. */
  lemma {:induction false} AbovePartitions(rs: seq<SimpleResult>, threshold: real)
    requires AllScored(rs)
    ensures multiset(Above(rs, threshold)) + multiset(AtOrBelow(rs, threshold)) == multiset(rs)
    ensures |Above(rs, threshold)| + |AtOrBelow(rs, threshold)| == |rs|
  {
    if rs != [] {
      AbovePartitions(rs[1..], threshold);
      assert rs == [rs[0]] + rs[1..];
    }
  }

  /** Filtering twice with the same threshold changes nothing more. */
  lemma {:induction false} AboveIdempotent(rs: seq<SimpleResult>, threshold: real)
    requires AllScored(rs)
    ensures Above(Above(rs, threshold), threshold) == Above(rs, threshold)
  {
    if rs != [] {
      AboveIdempotent(rs[1..], threshold);
    }
  }

  /** A higher threshold keeps a subset: filtering at t1 then t2 >= t1 equals filtering at t2. */
  lemma {:induction false} AboveMonotone(rs: seq<SimpleResult>, t1: real, t2: real)
    requires AllScored(rs) && t1 <= t2
    ensures Above(Above(rs, t1), t2) == Above(rs, t2)
  {
    if rs != [] {
      AboveMonotone(rs[1..], t1, t2);
    }
  }

  /**
   * text_similarity_search: embed the query, run knn_search with it and keep
   * the results scoring above `score`. `apiToken` is EMBEDDING_API_TOKEN.
   */
  method TextSimilaritySearch(text: string, k: int, score: real, apiToken: string,
                              service: EmbeddingRequest -> ApiReply, search: (KnnQuery, int) -> SearchResponse)
    returns (r: Result<SimilarityRecord, ToolError>)
    ensures var e := GenerateEmbedding(apiToken, None, Str(text), service);
      && (e.EmbedFailed? ==> r == Failure(EmbeddingFailed(e.error)))
      && (e.Embedded? && |e.embedding| != VectorDimension ==>
            r == Failure(DimensionMismatch(VectorDimension, |e.embedding|)))
      && (e.Embedded? && |e.embedding| == VectorDimension ==>
            var response := search(BuildKnnQuery(e.embedding, k), k);
            && (response.SearchFailed? ==> r == Failure(SearchError(response.message)))
            && (response.SearchSucceeded? ==>
                  && (r.Success? <==> AllScored(SimplifyAll(response.hits)))
                  && (r.Failure? ==> r.error == ScoreNotComparable)
                  && (r.Success? ==> r.value.results == Above(SimplifyAll(response.hits), score)
                                     && r.value.originalTotal == |response.hits|)))
    ensures r.Success? ==>
      && r.value.queryText == text && r.value.scoreThreshold == score
      && r.value.total == |r.value.results| <= r.value.originalTotal
      && forall i :: 0 <= i < |r.value.results| ==> r.value.results[i].score.Some? && r.value.results[i].score.value > score
  {
    var embedding := GenerateEmbedding(apiToken, None, Str(text), service);
    if embedding.EmbedFailed? {
      return Failure(EmbeddingFailed(embedding.error));
    }
    var found, _ := KnnSearch(embedding.embedding, k, search);
    if found.KnnRejected? {
      return Failure(found.error);
    }
    assert found.results == SimplifyAll(search(BuildKnnQuery(embedding.embedding, k), k).hits);
    var filtered := FilterByScore(found.results, score);
    if filtered.Failure? {
      return Failure(filtered.error);
    }
    r := Success(SimilarityRecord(text, filtered.value, |filtered.value|, score, found.total));
  }

  /** The document to index: the metadata, then `text`, then the vector, each overriding what came before. */
  method AssembleDocument(metadata: Object, text: string, embedding: Embedding) returns (document: Object)
    ensures document.Keys == metadata.Keys + {TextField, VectorField}
    ensures document[TextField] == Str(text) && document[VectorField] == EmbeddingValue(embedding)
    ensures document - {TextField, VectorField} == metadata - {TextField, VectorField}
  {
    document := metadata;
    document := document[TextField := Str(text)];
    document := document[VectorField := EmbeddingValue(embedding)];
  }

  /**
   * index_text_with_embedding, up to the store call it makes. `metadata` is the
   * JSON text argument, `parseJson` stands for json.loads (None on a decode error).
   */
  method IndexTextWithEmbedding(text: string, documentId: Option<string>, metadata: string, apiToken: string,
                                service: EmbeddingRequest -> ApiReply, parseJson: string -> Option<Value>)
    returns (r: Result<IndexCall, ToolError>)
    ensures var e := GenerateEmbedding(apiToken, None, Str(text), service);
      && (e.EmbedFailed? ==> r == Failure(EmbeddingFailed(e.error)))
      && (e.Embedded? && metadata != "{}" && parseJson(metadata).None? ==> r == Failure(InvalidMetadataJson))
      && (e.Embedded? && metadata != "{}" && parseJson(metadata).Some? && !parseJson(metadata).value.Obj? ==>
            r == Failure(MetadataNotObject))
      && (e.Embedded? && metadata == "{}" ==>
            r.Success? && r.value.document == map[TextField := Str(text), VectorField := EmbeddingValue(e.embedding)])
      && (e.Embedded? && metadata != "{}" && parseJson(metadata).Some? && parseJson(metadata).value.Obj? ==>
            var fields := parseJson(metadata).value.fields;
            && r.Success?
            && r.value.document.Keys == fields.Keys + {TextField, VectorField}
            && r.value.document - {TextField, VectorField} == fields - {TextField, VectorField})
      && (r.Success? ==>
            && TextField in r.value.document && VectorField in r.value.document
            && r.value.document[TextField] == Str(text)
            && r.value.document[VectorField] == EmbeddingValue(e.embedding))
    ensures r.Success? ==>
      && (r.value.WriteDocument? <==> documentId.Some? && documentId.value != "")
      && (r.value.WriteDocument? ==> r.value.documentId == documentId.value)
  {
    var embedding := GenerateEmbedding(apiToken, None, Str(text), service);
    if embedding.EmbedFailed? {
      return Failure(EmbeddingFailed(embedding.error));
    }
    var fields: Object := map[];
    if metadata != "{}" {
      var parsed := parseJson(metadata);
      if parsed.None? {
        return Failure(InvalidMetadataJson);
      }
      if !parsed.value.Obj? {
        return Failure(MetadataNotObject);
      }
      fields := parsed.value.fields;
    }
    var document := AssembleDocument(fields, text, embedding.embedding);
    if documentId.Some? && documentId.value != "" {
      r := Success(WriteDocument(documentId.value, document));
    } else {
      r := Success(IndexDocument(document));
    }
  }
}
