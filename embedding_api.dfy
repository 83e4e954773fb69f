/**
 * The call to the hosted embedding service that both the MCP server and the
 * ingestion tools make. The HTTP request itself is an oracle: `service` maps
 * the request that would be posted to what came back.
 */
module EmbeddingApi {
  import opened Json

  const EmbeddingApiUrl: string := "https://api.siliconflow.cn/v1/embeddings"
  const DefaultModel: string := "Pro/BAAI/bge-m3"
  const EncodingFormat: string := "float"
  const VectorField: string := "dense_vector"
  const VectorDimension: nat := 1024

  /** An embedding vector; its numbers are never computed with, only carried and counted. */
  type Embedding = seq<real>

  /** The POST the service receives: JSON payload and the Authorization header. */
  datatype EmbeddingRequest = EmbeddingRequest(url: string, model: string, input: Value, encodingFormat: string, authorization: string)

  /**
   * What the HTTP exchange produced: the first `data` item's embedding (an absent
   * field reads as the empty vector), a requests exception (including a non-2xx
   * status), or any other exception while reading the reply.
   */
  datatype ApiReply = Replied(embedding: Embedding) | RequestFailed(reason: string) | ReplyUnreadable(reason: string)

  datatype EmbedError = TokenNotConfigured | ApiRequestFailed(reason: string) | UnexpectedError(reason: string)

  datatype EmbeddingResult = Embedded(embedding: Embedding, model: string) | EmbedFailed(error: EmbedError)

  /** The embedding as the JSON list that is stored in a document. */
  function EmbeddingValue(e: Embedding): (v: Value)
    ensures v.Arr? && |v.items| == |e|
    ensures forall i :: 0 <= i < |e| ==> v.items[i] == Num(e[i])
  {
    Arr(seq(|e|, i requires 0 <= i < |e| => Num(e[i])))
  }

  /**
   * generate_embedding. `apiToken` is the configured token ("" when unset);
   * `model` the optional model argument.
   */
  function GenerateEmbedding(apiToken: string, model: Option<string>, text: Value, service: EmbeddingRequest -> ApiReply): (r: EmbeddingResult)
    ensures apiToken == "" ==> r == EmbedFailed(TokenNotConfigured)
    ensures apiToken != "" ==>
      var name := if model.Some? && model.value != "" then model.value else DefaultModel;
      var reply := service(EmbeddingRequest(EmbeddingApiUrl, name, text, EncodingFormat, "Bearer " + apiToken));
      && (r.Embedded? <==> reply.Replied?)
      && (r.Embedded? ==> r.embedding == reply.embedding && r.model == name)
      && (reply.RequestFailed? ==> r == EmbedFailed(ApiRequestFailed(reply.reason)))
      && (reply.ReplyUnreadable? ==> r == EmbedFailed(UnexpectedError(reply.reason)))
  {
    if apiToken == "" then
      EmbedFailed(TokenNotConfigured)
    else
      var name := if model.Some? && model.value != "" then model.value else DefaultModel;
      match service(EmbeddingRequest(EmbeddingApiUrl, name, text, EncodingFormat, "Bearer " + apiToken))
      case Replied(e) => Embedded(e, name)
      case RequestFailed(reason) => EmbedFailed(ApiRequestFailed(reason))
      case ReplyUnreadable(reason) => EmbedFailed(UnexpectedError(reason))
  }

  /** Without a token the service is never consulted: the result is the same whatever it would answer. */
  lemma NoTokenMakesNoRequest(model: Option<string>, text: Value, s1: EmbeddingRequest -> ApiReply, s2: EmbeddingRequest -> ApiReply)
    ensures GenerateEmbedding("", model, text, s1) == GenerateEmbedding("", model, text, s2)
  {
  }
}
