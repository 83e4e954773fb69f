/**
 * The ingestion side's EmbeddingTools: embed a list of documents one by one,
 * split them into processed and failed ones, and turn the processed ones into
 * the interleaved action/document body of one OpenSearch bulk request.
 */
module BulkIndex {
  import opened Json
  import opened EmbeddingApi

  const IdField: string := "_id"
  const DefaultTextField: string := "text"

  type Document = map<string, Value>

  /** Why a document was not processed: no text field, or the embedding call's error message. */
  datatype FailReason = MissingTextField(field: string) | EmbeddingError(error: EmbedError)

  datatype FailedDoc = FailedDoc(doc: Document, reason: FailReason)

  /** One line of the bulk body: the `index` action (with `_id` when the document had one), or a document. */
  datatype BulkLine = IndexAction(index: string, id: Option<Value>) | Source(doc: Document)

  datatype BulkResult =
    | BulkSucceeded(response: Value, processedCount: int, failedCount: int, failedDocs: Option<seq<FailedDoc>>)
    | NothingProcessed(allFailed: seq<FailedDoc>)
    | BulkIndexingError(message: string)

  /** The configuration an EmbeddingTools instance is built with; nothing in it changes afterwards. */
  datatype EmbeddingTools = EmbeddingTools(indexName: string, apiToken: Option<string>) {

    /** generate_embedding of the tools: an unset or empty token fails before any request. */
    function Embed(text: Value, service: EmbeddingRequest -> ApiReply): (r: EmbeddingResult)
      ensures apiToken.None? || apiToken == Some("") ==> r == EmbedFailed(TokenNotConfigured)
    {
      GenerateEmbedding(apiToken.GetOr(""), None, text, service)
    }
  }

  /** What happens to one document in the first loop. */
  datatype Outcome = Processed(doc: Document) | Failed(failure: FailedDoc)

  function ProcessOne(tools: EmbeddingTools, doc: Document, textField: string, service: EmbeddingRequest -> ApiReply): Outcome {
    if textField !in doc then
      Failed(FailedDoc(doc, MissingTextField(textField)))
    else
      match tools.Embed(doc[textField], service)
      case EmbedFailed(e) => Failed(FailedDoc(doc, EmbeddingError(e)))
      case Embedded(v, _) => Processed(doc[VectorField := EmbeddingValue(v)])
  }

  /** The processed list after the first loop has seen `docs`. */
  function ProcessedDocs(tools: EmbeddingTools, docs: seq<Document>, textField: string, service: EmbeddingRequest -> ApiReply): seq<Document> {
    if docs == [] then []
    else
      var last := ProcessOne(tools, docs[|docs| - 1], textField, service);
      ProcessedDocs(tools, docs[..|docs| - 1], textField, service) + (if last.Processed? then [last.doc] else [])
  }

  /** The failed list after the first loop has seen `docs`. */
  function FailedDocs(tools: EmbeddingTools, docs: seq<Document>, textField: string, service: EmbeddingRequest -> ApiReply): seq<FailedDoc> {
    if docs == [] then []
    else
      var last := ProcessOne(tools, docs[|docs| - 1], textField, service);
      FailedDocs(tools, docs[..|docs| - 1], textField, service) + (if last.Failed? then [last.failure] else [])
  }

  /** The first loop of bulk_index_with_embeddings. */
  method PartitionDocuments(tools: EmbeddingTools, documents: seq<Document>, textField: string, service: EmbeddingRequest -> ApiReply)
    returns (processed: seq<Document>, failed: seq<FailedDoc>)
    ensures |processed| + |failed| == |documents|
    ensures processed == ProcessedDocs(tools, documents, textField, service)
    ensures failed == FailedDocs(tools, documents, textField, service)
  {
    processed, failed := [], [];
    for i := 0 to |documents|
      invariant |processed| + |failed| == i
      invariant processed == ProcessedDocs(tools, documents[..i], textField, service)
      invariant failed == FailedDocs(tools, documents[..i], textField, service)
    {
      var doc := documents[i];
      assert documents[..i + 1][..i] == documents[..i];
      if textField !in doc {
        failed := failed + [FailedDoc(doc, MissingTextField(textField))];
        continue;
      }
      var embedding := tools.Embed(doc[textField], service);
      if embedding.EmbedFailed? {
        failed := failed + [FailedDoc(doc, EmbeddingError(embedding.error))];
        continue;
      }
      var copy := doc[VectorField := EmbeddingValue(embedding.embedding)];
      processed := processed + [copy];
    }
    assert documents[..|documents|] == documents;
  }

  /** Every document lands in exactly one of the two lists. */
  lemma {:induction false} PartitionConserves(tools: EmbeddingTools, docs: seq<Document>, textField: string, service: EmbeddingRequest -> ApiReply)
    ensures |ProcessedDocs(tools, docs, textField, service)| + |FailedDocs(tools, docs, textField, service)| == |docs|
  {
    if docs != [] {
      PartitionConserves(tools, docs[..|docs| - 1], textField, service);
    }
  }

  /** A document without the text field fails with that reason, whatever the embedding service would say. */
  lemma MissingTextFieldFails(tools: EmbeddingTools, doc: Document, textField: string, s1: EmbeddingRequest -> ApiReply, s2: EmbeddingRequest -> ApiReply)
    requires textField !in doc
    ensures ProcessOne(tools, doc, textField, s1) == Failed(FailedDoc(doc, MissingTextField(textField)))
    ensures ProcessOne(tools, doc, textField, s1) == ProcessOne(tools, doc, textField, s2)
  {
  }

  /**
   * Each processed document is an input document that had the text field,
   * with the vector field added and nothing else changed.
   */
  lemma {:induction false} ProcessedAreExtendedInputs(tools: EmbeddingTools, docs: seq<Document>, textField: string, service: EmbeddingRequest -> ApiReply)
    ensures forall p :: p in ProcessedDocs(tools, docs, textField, service) ==>
      && textField in p && VectorField in p
      && exists d :: d in docs && p == d[VectorField := p[VectorField]]
  {
    if docs != [] {
      var init := docs[..|docs| - 1];
      ProcessedAreExtendedInputs(tools, init, textField, service);
      forall p | p in ProcessedDocs(tools, docs, textField, service)
        ensures textField in p && VectorField in p && exists d :: d in docs && p == d[VectorField := p[VectorField]]
      {
        if p in ProcessedDocs(tools, init, textField, service) {
          var d :| d in init && p == d[VectorField := p[VectorField]];
          assert d in docs;
        } else {
          assert p == ProcessOne(tools, docs[|docs| - 1], textField, service).doc;
          assert docs[|docs| - 1] in docs;
        }
      }
    }
  }

  /** Without an API token no document is processed: every one is failed. */
  lemma {:induction false} NoTokenFailsAll(tools: EmbeddingTools, docs: seq<Document>, textField: string, service: EmbeddingRequest -> ApiReply)
    requires tools.apiToken.None? || tools.apiToken == Some("")
    ensures ProcessedDocs(tools, docs, textField, service) == []
    ensures |FailedDocs(tools, docs, textField, service)| == |docs|
  {
    if docs != [] {
      NoTokenFailsAll(tools, docs[..|docs| - 1], textField, service);
    }
  }

  /** The action line that precedes a document in the bulk body. */
  function ActionFor(indexName: string, doc: Document): BulkLine {
    IndexAction(indexName, if IdField in doc then Some(doc[IdField]) else None)
  }

  /** `bulk` is the bulk body for `processed`: an action line, then the document without `_id`, per document in order. */
  ghost predicate IsBulkBodyFor(indexName: string, processed: seq<Document>, bulk: seq<BulkLine>) {
    && |bulk| == 2 * |processed|
    && forall i :: 0 <= i < |processed| ==>
         bulk[2 * i] == ActionFor(indexName, processed[i]) && bulk[2 * i + 1] == Source(processed[i] - {IdField})
  }

  /** The second loop of bulk_index_with_embeddings. */
  method BuildBulkBody(indexName: string, processed: seq<Document>) returns (bulk: seq<BulkLine>)
    ensures |bulk| == 2 * |processed|
    ensures forall i :: 0 <= i < |processed| ==>
      && bulk[2 * i] == IndexAction(indexName, if IdField in processed[i] then Some(processed[i][IdField]) else None)
      && bulk[2 * i + 1] == Source(processed[i] - {IdField})
    ensures IsBulkBodyFor(indexName, processed, bulk)
  {
    bulk := [];
    for i := 0 to |processed|
      invariant |bulk| == 2 * i
      invariant forall j :: 0 <= j < i ==>
        bulk[2 * j] == ActionFor(indexName, processed[j]) && bulk[2 * j + 1] == Source(processed[j] - {IdField})
    {
      var doc := processed[i];
      if IdField in doc {
        var docId := doc[IdField];
        doc := doc - {IdField};
        bulk := bulk + [IndexAction(indexName, Some(docId))];
      } else {
        bulk := bulk + [IndexAction(indexName, None)];
      }
      bulk := bulk + [Source(doc)];
    }
  }

  /** Reads the documents back out of a bulk body, putting each `_id` back. */
  function Unbulk(bulk: seq<BulkLine>): seq<Document>
    decreases |bulk|
  {
    if |bulk| < 2 || !bulk[1].Source? then []
    else
      var doc := bulk[1].doc;
      var restored := if bulk[0].IndexAction? && bulk[0].id.Some? then doc[IdField := bulk[0].id.value] else doc;
      [restored] + Unbulk(bulk[2..])
  }

  /** The bulk body loses nothing: reading it back gives the processed documents. */
  lemma {:induction false} BulkBodyRoundTrip(indexName: string, processed: seq<Document>, bulk: seq<BulkLine>)
    requires IsBulkBodyFor(indexName, processed, bulk)
    ensures Unbulk(bulk) == processed
  {
    if processed != [] {
      var p := processed[0];
      assert bulk[0] == ActionFor(indexName, p) && bulk[1] == Source(p - {IdField});
      assert IsBulkBodyFor(indexName, processed[1..], bulk[2..]) by {
        forall i | 0 <= i < |processed[1..]|
          ensures bulk[2..][2 * i] == ActionFor(indexName, processed[1..][i])
          ensures bulk[2..][2 * i + 1] == Source(processed[1..][i] - {IdField})
        {
          assert bulk[2..][2 * i] == bulk[2 * (i + 1)];
          assert bulk[2..][2 * i + 1] == bulk[2 * (i + 1) + 1];
        }
      }
      BulkBodyRoundTrip(indexName, processed[1..], bulk[2..]);
      if IdField in p {
        assert (p - {IdField})[IdField := p[IdField]] == p;
      } else {
        assert p - {IdField} == p;
      }
      assert processed == [p] + processed[1..];
    }
  }

  /**
   * What bulk_index_with_embeddings reports for `documents`, given the bulk body
   * it sent, if any: with nothing processed, every failure and no request;
   * otherwise the bulk body of the processed documents is sent, and the store's
   * failure or its reply is reported together with both counts and the failed
   * list (null when empty).
   */
  ghost predicate ReportsBulk(tools: EmbeddingTools, documents: seq<Document>, textField: string,
                              service: EmbeddingRequest -> ApiReply, bulkApi: seq<BulkLine> -> Result<Value, string>,
                              r: BulkResult, sent: Option<seq<BulkLine>>)
  {
    var processed := ProcessedDocs(tools, documents, textField, service);
    var failed := FailedDocs(tools, documents, textField, service);
    if processed == [] then
      r == NothingProcessed(failed) && sent == None
    else
      && sent.Some? && IsBulkBodyFor(tools.indexName, processed, sent.value)
      && match bulkApi(sent.value)
         case Failure(message) => r == BulkIndexingError(message)
         case Success(response) =>
           r == BulkSucceeded(response, |processed|, |failed|, if failed == [] then None else Some(failed))
  }

  /**
   * bulk_index_with_embeddings. `bulkApi` stands for the client's bulk call
   * (Failure carries the exception text); `sent` is the body it was given, if any.
   */
  method BulkIndexWithEmbeddings(tools: EmbeddingTools, documents: seq<Document>, textField: string,
                                 service: EmbeddingRequest -> ApiReply, bulkApi: seq<BulkLine> -> Result<Value, string>)
    returns (r: BulkResult, sent: Option<seq<BulkLine>>)
    ensures var processed := ProcessedDocs(tools, documents, textField, service);
      && (processed == [] <==> r.NothingProcessed?)
      && (processed == [] ==> r == NothingProcessed(FailedDocs(tools, documents, textField, service)) && sent == None)
      && (processed != [] ==> sent.Some? && IsBulkBodyFor(tools.indexName, processed, sent.value))
    ensures sent.Some? ==> (r.BulkSucceeded? <==> bulkApi(sent.value).Success?)
    ensures sent.Some? && bulkApi(sent.value).Failure? ==> r == BulkIndexingError(bulkApi(sent.value).error)
    ensures r.BulkSucceeded? ==>
      && sent.Some? && r.response == bulkApi(sent.value).value
      && r.processedCount == |ProcessedDocs(tools, documents, textField, service)| > 0
      && r.failedCount == |FailedDocs(tools, documents, textField, service)|
      && r.processedCount + r.failedCount == |documents|
      && (r.failedDocs.None? <==> r.failedCount == 0)
      && (r.failedDocs.Some? ==> r.failedDocs.value == FailedDocs(tools, documents, textField, service))
    ensures ReportsBulk(tools, documents, textField, service, bulkApi, r, sent)
  {
    var processed, failed := PartitionDocuments(tools, documents, textField, service);
    if processed == [] {
      return NothingProcessed(failed), None;
    }
    var bulk := BuildBulkBody(tools.indexName, processed);
    sent := Some(bulk);
    var response := bulkApi(bulk);
    if response.Failure? {
      return BulkIndexingError(response.error), sent;
    }
    r := BulkSucceeded(response.value, |processed|, |failed|, if failed != [] then Some(failed) else None);
  }
}
