# aos-mcp-serverless, modelled in Dafny

A model of the OpenSearch knowledge-base side of the aws-mcp-servers-samples
repository:

- the Lambda **authorizer** of the serverless MCP API, which turns an API
  Gateway token event into an IAM policy that allows or denies `execute-api:Invoke`
  (`authorizer.dfy`);
- the **embedding call** to the hosted embedding service, which both the MCP
  server and the ingestion tools make (`embedding_api.dfy`);
- the **MCP server tools**: kNN search over the `dense_vector` field, the
  `textSimilaritySearch` tool with its score threshold, and
  `index_text_with_embedding` (`mcp_server.dfy`);
- the **bulk indexer** of the ingestion tools, which embeds each document,
  sets aside the ones that fail, and sends one OpenSearch bulk body
  (`bulk_index.dfy`);
- the **document ingestor**, which creates the kNN index when it is missing,
  turns a text file into chunk documents with their metadata, bulk-indexes
  them, and derives the script's exit status (`doc_ingest.dfy`);
- the agent-side **MCP client** and its `similarity_search` tool. The client
  sends JSON-RPC 2.0 requests, keeps the `Mcp-Session-Id` the server hands
  out and sends it back, and classifies the search reply (`mcp_client.dfy`).

`json.dfy` holds the shared JSON value type, Python truthiness and the
`Option`/`Result` wrappers.

The network, the OpenSearch cluster and the embedding service are not
modelled as code. Each one is a function parameter, an oracle, that maps the
request that would be sent to what came back. The contracts are therefore
stated for every possible behaviour of those services. Values taken from the
environment are also parameters: `MCP_AUTH_TOKEN`, the embedding API token,
whether the file exists and what the read returned. Python dictionaries are
`map<string, Value>`.

The cluster's set of indices is a class whose methods update it in place.
So is the caller's metadata dictionary, because the ingestor writes
`source` and `filename` into it. The MCP client's session id is a field
that each request may update. Everything else is modelled on values.

## Model

| member | source | states |
|---|---|---|
| Authorizer.StripBearer | aos-mcp-serverless/serverless-mcp-setup/authorizer/app.py:14-16 | exactly one leading `Bearer ` is removed: prefix + result gives back the token; a token without the prefix is kept unchanged |
| Authorizer.DecideAllowsExactlyAdmitted | aos-mcp-serverless/serverless-mcp-setup/authorizer/app.py:9-22 | the effect is Allow if and only if the presented header is `Bearer ` + expected, or is the expected token itself when that does not start with `Bearer ` |
| Authorizer.LambdaHandler | aos-mcp-serverless/serverless-mcp-setup/authorizer/app.py:4-39 | a missing `methodArn` is exactly the failure case (a KeyError); otherwise a policy with principal `mcp-user`, version 2012-10-17, and one statement with `execute-api:Invoke` on that ARN, whose effect is Allow if and only if the token is admitted |
| Authorizer.StripsOnlyOnePrefix | aos-mcp-serverless/serverless-mcp-setup/authorizer/app.py:15-19 | a doubled `Bearer Bearer x` matches the expected token `Bearer x`, not `x` |
| Authorizer.PrefixIsExact | aos-mcp-serverless/serverless-mcp-setup/authorizer/app.py:15-16 | the prefix check is case-sensitive and needs the space: `bearer t` and `Bearert` are denied |
| Authorizer.UnsetTokenDeniesAll | aos-mcp-serverless/serverless-mcp-setup/authorizer/app.py:9-22 | without a configured token every request is denied |
| Authorizer.EmptyTokenAdmitsMissingHeader | aos-mcp-serverless/serverless-mcp-setup/authorizer/app.py:9-22 | a configured empty token admits a request without a token, and one whose token is just `Bearer ` |
| EmbeddingApi.EmbeddingValue | aos-mcp-serverless/app.py:158-161 | the stored vector is a JSON list of the same length, element by element |
| EmbeddingApi.GenerateEmbedding | aos-mcp-serverless/app.py:40-72 | no token gives "not configured" without a request; otherwise the request carries the given model, or the default model when none is given, plus `float` encoding and `Bearer <token>`; success exactly when the reply was read, carrying its embedding and the model name; request errors and other errors are kept apart |
| EmbeddingApi.NoTokenMakesNoRequest | aos-mcp-serverless/app.py:42-43 | without a token the result does not depend on the service at all |
| AosMcpServer.Metadata | aos-mcp-serverless/app.py:115 | the metadata holds every `_source` key except `text` and `dense_vector`, with the same values |
| AosMcpServer.SimplifyKeepsSource | aos-mcp-serverless/app.py:109-116 | id and score are carried over, and metadata plus text gives back the stored source |
| AosMcpServer.KnnSearch | aos-mcp-serverless/app.py:75-127 | a vector not of dimension 1024 is rejected and no query is issued; otherwise the query has size k, k neighbours and excludes `dense_vector`; a search failure is passed on; on success result i is hit i simplified, and total is the count |
| AosMcpServer.Above | aos-mcp-serverless/app.py:205-208 | the kept results are exactly those whose score is above the threshold, all drawn from the input |
| AosMcpServer.AtOrBelow | aos-mcp-serverless/app.py:205-208 | every result the filter drops has a score, and that score is at or below the threshold |
| AosMcpServer.FilterByScore | aos-mcp-serverless/app.py:205-208 | filtering succeeds exactly when every result has a score; a null score cannot be compared and raises |
| AosMcpServer.AboveIsSubsequence | aos-mcp-serverless/app.py:205-208 | filtering keeps the search order: the result is a subsequence of the input |
| AosMcpServer.AbovePartitions | aos-mcp-serverless/app.py:205-208 | the kept and dropped results together are a permutation of the input |
| AosMcpServer.AboveIdempotent | aos-mcp-serverless/app.py:205-208 | filtering twice by the same threshold changes nothing |
| AosMcpServer.AboveMonotone | aos-mcp-serverless/app.py:205-208 | filtering by a lower and then a higher threshold is the same as filtering by the higher one |
| AosMcpServer.TextSimilaritySearch | aos-mcp-serverless/app.py:178-227 | embedding, dimension and search errors are passed on; a hit without a score makes the filter raise (ScoreNotComparable), and only that fails after a successful search; on success the results are the simplified hits above the threshold, and total counts them, no more than `original_total` (the number of hits); the query text and threshold are echoed |
| AosMcpServer.AssembleDocument | aos-mcp-serverless/app.py:158-161 | the document is the metadata with `text` and `dense_vector` set or overwritten, and nothing else changed |
| AosMcpServer.IndexTextWithEmbedding | aos-mcp-serverless/app.py:130-175 | an embedding error comes first; the literal `{}` is not parsed and gives a document of just text and vector; invalid JSON gives "Invalid metadata JSON format"; metadata that parses to an object gives the document with its keys plus `text` and `dense_vector`, the text and vector overriding and every other entry kept; the document is written under the id exactly when a non-empty id is given, otherwise indexed with a generated id |
| BulkIndex.EmbeddingTools.Embed | aos-mcp-serverless/aos_setup/tools/embedding.py:14-55 | a missing or empty token fails with "not configured" |
| BulkIndex.PartitionDocuments | aos-mcp-serverless/aos_setup/tools/embedding.py:69-87 | every document is either processed or failed, in input order: documents without the text field fail with that reason, embedding failures fail with the embedding's message |
| BulkIndex.PartitionConserves | aos-mcp-serverless/aos_setup/tools/embedding.py:72-87 | processed plus failed counts equal the number of documents |
| BulkIndex.MissingTextFieldFails | aos-mcp-serverless/aos_setup/tools/embedding.py:73-75 | a document without the text field fails without consulting the embedding service |
| BulkIndex.ProcessedAreExtendedInputs | aos-mcp-serverless/aos_setup/tools/embedding.py:85-87 | every processed document is an input document with only `dense_vector` added or replaced |
| BulkIndex.NoTokenFailsAll | aos-mcp-serverless/aos_setup/tools/embedding.py:25-26 | without a token no document is processed and all of them fail |
| BulkIndex.BuildBulkBody | aos-mcp-serverless/aos_setup/tools/embedding.py:99-109 | two lines per processed document: an index action for the index, with `_id` exactly when the document had one, then the document without `_id` |
| BulkIndex.BulkBodyRoundTrip | aos-mcp-serverless/aos_setup/tools/embedding.py:99-109 | reading the bulk body back (restoring `_id` from each action) gives the processed documents |
| BulkIndex.BulkIndexWithEmbeddings | aos-mcp-serverless/aos_setup/tools/embedding.py:57-122 | "No documents were processed successfully" (with all the failures) exactly when none were processed, and then nothing is sent; otherwise the bulk body of the processed documents is sent and its failure is reported as a bulk indexing error; on success the store's reply is returned, `processed_count` and `failed_count` are the lengths of the processed and failed lists (adding up to the input), and `failed_docs` is the failed list, null exactly when it is empty |
| DocIngest.MetadataDict.RecordSource | aos-mcp-serverless/aos_setup/doc_ingest/doc_ingest.py:192-193 | the caller's dictionary gains `source` (the path) and `filename` (its basename), and nothing else changes |
| DocIngest.Recorded | aos-mcp-serverless/aos_setup/doc_ingest/doc_ingest.py:191-193 | recording `source` and `filename` adds exactly those two keys, with the given values, overriding earlier ones and keeping every other entry |
| DocIngest.Basename | aos-mcp-serverless/aos_setup/doc_ingest/doc_ingest.py:193 | the basename is the longest suffix without `/`: it holds no `/` and is preceded by `/` unless it is the whole path |
| DocIngest.BuildChunkDocuments | aos-mcp-serverless/aos_setup/doc_ingest/doc_ingest.py:190-205 | one document per chunk, in order: its text is the chunk, and its metadata is the base metadata plus `chunk_index` i and `chunk_count` |
| DocIngest.ChunkDocumentDescribesChunk | aos-mcp-serverless/aos_setup/doc_ingest/doc_ingest.py:197-204 | chunk document i has text chunk i, index i, the chunk count, and every base metadata entry not overridden |
| DocIngest.ChunkDocumentsHaveText | aos-mcp-serverless/aos_setup/doc_ingest/doc_ingest.py:197-198 | every chunk document has the `text` field |
| DocIngest.OnlyEmbeddingFailures | aos-mcp-serverless/aos_setup/doc_ingest/doc_ingest.py:208 | when every document has `text`, every failure is an embedding failure |
| DocIngest.IndexChunks | aos-mcp-serverless/aos_setup/doc_ingest/doc_ingest.py:195-215 | the result is what the bulk indexer reports for exactly the chunk documents (the body it sends, the store's reply, the counts and the failed list); no chunks means nothing processed and nothing sent; counts add up to the number of chunks; all failures are embedding failures |
| DocIngest.DocumentIngestor.constructor | aos-mcp-serverless/aos_setup/doc_ingest/doc_ingest.py:32-86 | the ingestor keeps its cluster client, index name, embedding token, chunk size and chunk overlap |
| DocIngest.DocumentIngestor.CreateIndexIfNotExists | aos-mcp-serverless/aos_setup/doc_ingest/doc_ingest.py:88-133 | the index is created with the kNN mapping (1 shard, 0 replicas, 60s refresh, ef_search 32, 1024-d HNSW inner-product faiss vector, ef_construction 32, m 16, `text` as text, `metadata` as object) exactly when it did not exist; other indices are untouched |
| DocIngest.DocumentIngestor.CreateIndexTwice | aos-mcp-serverless/aos_setup/doc_ingest/doc_ingest.py:88-133 | creation is idempotent: a second call creates nothing; the cluster ends as before if the index existed, else with exactly the kNN mapping added under the index name |
| DocIngest.DocumentIngestor.ProcessFile | aos-mcp-serverless/aos_setup/doc_ingest/doc_ingest.py:168-219 | the index exists afterwards; a read failure is reported as an error and nothing is sent; a non-empty caller dictionary is updated in place with source and filename, an empty or absent one is not; the result is what the bulk indexer reports for the chunk documents of the file (split with the ingestor's chunk size and overlap), one per chunk in order, whose metadata is the caller's (or an empty) dictionary with `source` and `filename` recorded |
| DocIngest.RunIngestion | aos-mcp-serverless/aos_setup/doc_ingest/doc_ingest.py:221-262 | a missing file exits with 1 before anything is touched; otherwise the file is processed without caller metadata: the cluster ends as before if the index existed, else with exactly the kNN mapping added, a read failure is the reported error with nothing sent, and a read file gives what the bulk indexer reports for its chunk documents carrying `source` and `filename`; the exit code is 0 exactly when processing succeeded |
| McpClient.RequestPayload | aos-mcp-serverless/strands_agent_test/similarity_search.py:176-183 | a JSON-RPC 2.0 request with id and method, and `params` exactly when there are parameters |
| McpClient.HeadersFor | aos-mcp-serverless/strands_agent_test/similarity_search.py:185-188 | the base headers, plus `Mcp-Session-Id` when a non-empty session id is held; the base headers are otherwise unchanged |
| McpClient.SessionHeaderSentIffHeld | aos-mcp-serverless/strands_agent_test/similarity_search.py:185-188 | the session header goes out if and only if a non-empty session id is held |
| McpClient.Classify | aos-mcp-serverless/strands_agent_test/similarity_search.py:237-249 | "API call failed" exactly when the status is not 200 or there is no `result`; "No content" exactly when `result.content` is present and empty; the first content item exactly when the content is a non-empty list (its first element) or string (its first character); the lookup raises exactly when `result` is not an object, has no `content`, or the content is a truthy value of another kind |
| McpClient.MCPClient.constructor | aos-mcp-serverless/strands_agent_test/similarity_search.py:148-162 | no session yet; JSON content type and `Bearer <token>` authorization |
| McpClient.MCPClient.MakeRequest | aos-mcp-serverless/strands_agent_test/similarity_search.py:164-199 | one request is sent, with the current session id; the session id is taken from the response header when present, even when the body is unreadable; transport and decoding errors give no status and `{"error": …}` |
| McpClient.MCPClient.Initialize | aos-mcp-serverless/strands_agent_test/similarity_search.py:201-214 | sends `initialize` with protocol 2024-11-05 and the client info; true exactly when the reply was 200 with a `result` |
| McpClient.MCPClient.SimilaritySearch | aos-mcp-serverless/strands_agent_test/similarity_search.py:216-249 | sends `tools/call` for `textSimilaritySearch` with text, k and score, and returns the classified reply |
| McpClient.SimilaritySearchTool | aos-mcp-serverless/strands_agent_test/similarity_search.py:251-339 | a missing `text`, `api_endpoint` or `auth_token` (checked in that order) is an error and sends nothing; a failed initialize is an error after one request; otherwise exactly two requests, the second carrying the session id from the first reply, k defaulting to 5 and score to 0.0; the status is success unless reading the reply raised |

## Left out

- HTTP, OpenSearch and the embedding service are oracles. Timeouts, retries,
  TLS settings and the `aos_client.py` connection wrapper are not modelled.
  The index and bulk replies are passed through unread. A search reply is
  read only for `hits.hits` and each hit's `_id`, `_score` and `_source`.
- AosMcpServer.KnnSearch: the catch-all handler that reports
  "kNN search error: …" is not modelled. It is reached when a hit is not an
  object or its `_source` is null. The model's hits are always records, and
  an absent `_source` reads as empty.
- The number values inside an embedding are carried, never computed with.
  OpenSearch's ranking of neighbours and its scores are whatever the search
  oracle returns.
- Connection errors during index creation are not modelled. `ProcessFile`
  treats the existence check and the create call as always succeeding.
- `ProcessFile` models only a failed file read as a caught exception. An
  exception raised inside the text splitter is not modelled. The splitter
  (`RecursiveCharacterTextSplitter`) is an oracle. It is given the text and
  the ingestor's chunk size and overlap, and returns the chunks.
- JSON bodies that decode to something other than an object are not
  modelled. `"result" in response` on a list or a string does not follow
  dictionary semantics in Python.
- The `k` and `score` inputs of the similarity_search tool are taken to be an
  integer and a number. The source passes any JSON value through.
- AosMcpServer.FilterByScore: the `.get("score", 0)` default never applies,
  because every simplified result has a `score` key. A null `_score` is
  compared with the threshold and raises TypeError. The model reports that
  as ScoreNotComparable. Like MetadataNotObject, it is an exception the
  source does not catch. A Malformed search reply also raises, but the
  similarity_search tool catches that and reports an error result.
- The default arguments of the server tools are not modelled. Those defaults are
  k = 10 for `knn_search` and `text_similarity_search`, score = 0.0, no document
  id, and metadata `"{}"`. Every argument is an explicit parameter of the model.
- The `refresh=True` flag of the bulk call is not modelled. The model's `sent`
  holds only the bulk body.
- Logging, argparse and the environment lookups of `main` are not modelled
  (the values arrive as parameters), nor is the asyncio event loop.
- Python's key order in dictionaries is not modelled: maps are unordered.
- McpClient.MCPClient.MakeRequest: response header names are taken to be
  lower-case already. The source's `requests` headers compare names
  case-insensitively.
- The `lambda_handler` of the MCP server is not modelled; it only forwards
  to the MCP framework. The S3 upload servers are not part of this model.
