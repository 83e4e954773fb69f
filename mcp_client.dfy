/**
 * The agent-side MCP client and the similarity_search tool built on it: JSON-RPC 2.0
 * request objects (section 4 of the JSON-RPC 2.0 specification), an
 * `Mcp-Session-Id` that the server hands out and the client echoes back, and
 * the classification of the search reply. The HTTP POST is an oracle: `post`
 * maps the request sent to what came back.
 */
module McpClient {
  import opened Json

  type Headers = map<string, string>

  const JsonRpcVersion: string := "2.0"
  const SessionHeader: string := "Mcp-Session-Id"
  /** The response header name as looked up; the header map handed over is taken to have lower-case names. */
  const ResponseSessionHeader: string := "mcp-session-id"
  const ProtocolVersion: string := "2024-11-05"
  const ClientName: string := "strands-similarity-search"
  const ClientVersion: string := "1.0.0"
  const SearchToolName: string := "textSimilaritySearch"
  const DefaultRequestId: int := 1
  const DefaultK: int := 5
  const DefaultScore: real := 0.0

  /** One POST: the endpoint, the JSON payload and the headers. */
  datatype Request = Request(url: string, payload: Object, headers: Headers)

  /**
   * What a POST produced: a response (status, headers, and the body decoded
   * as a JSON object, or the decoder's error text), or an exception from the
   * transport.
   */
  datatype HttpReply = Responded(status: int, headers: Headers, body: Result<Object, string>) | TransportFailed(message: string)

  /** The search tool's answer as similarity_search classifies it. */
  datatype SearchReply =
    | FirstContent(item: Value)      // the first content item
    | NoContent                      // {"error": "No content in response"}
    | ApiCallFailed(response: Object) // {"error": "API call failed: <response>"}
    | Malformed                      // `result` or `content` not shaped as read: the lookup raises

  datatype ToolInput = ToolInput(text: Option<string>, k: Option<int>, score: Option<real>, apiEndpoint: Option<string>, authToken: Option<string>)

  datatype ToolStatus = ToolSucceeded | ToolErrored

  /** The error texts the tool reports; the last two stand for "Error during similarity search: <exception>". */
  datatype ToolMessage = InitializeFailed | MissingInput(key: string) | SearchRaised

  datatype ToolBody = Results(reply: SearchReply) | Content(message: ToolMessage)

  datatype ToolResult = ToolResult(toolUseId: string, status: ToolStatus, body: ToolBody)

  function BaseHeaders(authToken: string): Headers {
    map["Content-Type" := "application/json", "Authorization" := "Bearer " + authToken]
  }

  function ErrorRecord(message: string): Object {
    map["error" := Str(message)]
  }

  /** The JSON-RPC request object; `params` is left out when there are none. */
  function RequestPayload(rpcMethod: string, params: Object, id: int): (p: Object)
    ensures p.Keys == {"jsonrpc", "id", "method"} + (if params != map[] then {"params"} else {})
    ensures p["jsonrpc"] == Str(JsonRpcVersion) && p["id"] == Int(id) && p["method"] == Str(rpcMethod)
    ensures "params" in p ==> p["params"] == Obj(params)
  {
    var p := map["jsonrpc" := Str(JsonRpcVersion), "id" := Int(id), "method" := Str(rpcMethod)];
    if params != map[] then p["params" := Obj(params)] else p
  }

  /** The parameters a server reads from a request object: absent `params` means none. */
  function ParamsOf(payload: Object): Object {
    if "params" in payload && payload["params"].Obj? then payload["params"].fields else map[]
  }

  /** A server recovers method, id and parameters from the request object. */
  lemma PayloadRoundTrip(rpcMethod: string, params: Object, id: int)
    ensures var p := RequestPayload(rpcMethod, params, id);
      ParamsOf(p) == params && p["method"] == Str(rpcMethod) && p["id"] == Int(id)
  {
  }

  /** The headers of a request: the base headers, plus the session id when one is held (a non-empty string). */
  function HeadersFor(base: Headers, session: Option<string>): (h: Headers)
    ensures session.Some? && session.value != "" ==> SessionHeader in h && h[SessionHeader] == session.value
    ensures !(session.Some? && session.value != "") ==> h == base
    ensures forall key :: key in base && key != SessionHeader ==> key in h && h[key] == base[key]
    ensures h.Keys <= base.Keys + {SessionHeader}
  {
    if session.Some? && session.value != "" then base[SessionHeader := session.value] else base
  }

  /** The session header goes out exactly when a session id is held. */
  lemma SessionHeaderSentIffHeld(authToken: string, session: Option<string>)
    ensures SessionHeader in HeadersFor(BaseHeaders(authToken), session) <==> session.Some? && session.value != ""
  {
    assert SessionHeader !in BaseHeaders(authToken);
  }

  /** The (status, response) pair make_request returns for a reply. */
  function Received(reply: HttpReply): (Option<int>, Object) {
    match reply
    case TransportFailed(message) => (None, ErrorRecord(message))
    case Responded(status, _, body) =>
      if body.Success? then (Some(status), body.value) else (None, ErrorRecord(body.error))
  }

  /** The session id after a reply: taken from the response header when present (even when the body fails to decode). */
  function NextSession(current: Option<string>, reply: HttpReply): Option<string> {
    if reply.Responded? && ResponseSessionHeader in reply.headers then Some(reply.headers[ResponseSessionHeader]) else current
  }

  /** A 200 reply whose body has a `result`: initialize's verdict, and where similarity_search starts reading. */
  predicate Initialized(received: (Option<int>, Object)) {
    received.0 == Some(200) && "result" in received.1
  }

  /** The reply carries `result.content`, so the lookup does not raise. */
  predicate HasContent(received: (Option<int>, Object)) {
    Initialized(received) && received.1["result"].Obj? && "content" in received.1["result"].fields
  }

  function ContentOf(received: (Option<int>, Object)): Value
    requires HasContent(received)
  {
    received.1["result"].fields["content"]
  }

  /** The reply classification of similarity_search. */
  function Classify(received: (Option<int>, Object)): (r: SearchReply)
    ensures r == ApiCallFailed(received.1) <==> !Initialized(received)
    ensures r == NoContent <==> HasContent(received) && !Truthy(ContentOf(received))
    ensures r.FirstContent? <==> HasContent(received) && Truthy(ContentOf(received)) && (ContentOf(received).Arr? || ContentOf(received).Str?)
    ensures r.FirstContent? && ContentOf(received).Arr? ==> r.item == ContentOf(received).items[0]
    ensures r.FirstContent? && ContentOf(received).Str? ==> r.item == Str(ContentOf(received).s[..1])
    ensures r == Malformed <==>
      Initialized(received) && (!HasContent(received) || (Truthy(ContentOf(received)) && !ContentOf(received).Arr? && !ContentOf(received).Str?))
  {
    var (status, response) := received;
    if status == Some(200) && "result" in response then
      var result := response["result"];
      if !result.Obj? || "content" !in result.fields then Malformed
      else
        var content := result.fields["content"];
        if !Truthy(content) then NoContent
        else if content.Arr? then FirstContent(content.items[0])
        else if content.Str? then FirstContent(Str(content.s[..1]))
        else Malformed
    else ApiCallFailed(response)
  }

  function InitializeParams(): Object {
    map[
      "protocolVersion" := Str(ProtocolVersion),
      "capabilities" := Obj(map["tools" := Obj(map[])]),
      "clientInfo" := Obj(map["name" := Str(ClientName), "version" := Str(ClientVersion)])
    ]
  }

  function SearchParams(text: string, k: int, score: real): Object {
    map["name" := Str(SearchToolName), "arguments" := Obj(map["text" := Str(text), "k" := Int(k), "score" := Num(score)])]
  }

  class MCPClient {
    const endpoint: string
    const authToken: string
    const headers: Headers
    var sessionId: Option<string>
    /** The requests posted so far, in order: what the server has seen of this client. */
    ghost var sent: seq<Request>

    constructor (endpoint: string, authToken: string)
      ensures this.endpoint == endpoint && this.authToken == authToken
      ensures headers == BaseHeaders(authToken) && sessionId == None && sent == []
    {
      this.endpoint := endpoint;
      this.authToken := authToken;
      this.headers := BaseHeaders(authToken);
      sessionId := None;
      sent := [];
    }

    function RequestHeaders(): Headers
      reads this
    {
      HeadersFor(headers, sessionId)
    }

    /** make_request. The stored base headers are a constant: only the copy sent carries the session id. */
    method MakeRequest(rpcMethod: string, params: Object, requestId: int, post: Request -> HttpReply)
      returns (status: Option<int>, response: Object)
      modifies this
      ensures var request := Request(endpoint, RequestPayload(rpcMethod, params, requestId), old(RequestHeaders()));
        var reply := post(request);
        && sent == old(sent) + [request]
        && (status, response) == Received(reply)
        && sessionId == NextSession(old(sessionId), reply)
        && (reply.TransportFailed? ==> status == None && response == ErrorRecord(reply.message) && sessionId == old(sessionId))
        && (reply.Responded? && ResponseSessionHeader in reply.headers ==> sessionId == Some(reply.headers[ResponseSessionHeader]))
        && (reply.Responded? && ResponseSessionHeader !in reply.headers ==> sessionId == old(sessionId))
        && (reply.Responded? && reply.body.Success? ==> status == Some(reply.status) && response == reply.body.value)
        && (reply.Responded? && reply.body.Failure? ==> status == None && response == ErrorRecord(reply.body.error))
    {
      var payload := RequestPayload(rpcMethod, params, requestId);
      var requestHeaders := headers;
      if sessionId.Some? && sessionId.value != "" {
        requestHeaders := requestHeaders[SessionHeader := sessionId.value];
      }
      var request := Request(endpoint, payload, requestHeaders);
      sent := sent + [request];
      var reply := post(request);
      match reply {
        case TransportFailed(message) =>
          return None, ErrorRecord(message);
        case Responded(code, replyHeaders, body) =>
          if ResponseSessionHeader in replyHeaders {
            sessionId := Some(replyHeaders[ResponseSessionHeader]);
          }
          if body.Failure? {
            return None, ErrorRecord(body.error);
          }
          status, response := Some(code), body.value;
      }
    }

    /** initialize: true exactly when the server answered 200 with a decodable body holding `result`. */
    method Initialize(post: Request -> HttpReply) returns (ok: bool)
      modifies this
      ensures var request := Request(endpoint, RequestPayload("initialize", InitializeParams(), DefaultRequestId), old(RequestHeaders()));
        var reply := post(request);
        && sent == old(sent) + [request]
        && sessionId == NextSession(old(sessionId), reply)
        && (ok <==> Initialized(Received(reply)))
        && (ok <==> reply.Responded? && reply.status == 200 && reply.body.Success? && "result" in reply.body.value)
    {
      var status, response := MakeRequest("initialize", InitializeParams(), DefaultRequestId, post);
      ok := status == Some(200) && "result" in response;
    }

    /** similarity_search: call the server's search tool and classify its answer. */
    method SimilaritySearch(text: string, k: int, score: real, post: Request -> HttpReply) returns (r: SearchReply)
      modifies this
      ensures var request := Request(endpoint, RequestPayload("tools/call", SearchParams(text, k, score), DefaultRequestId), old(RequestHeaders()));
        && sent == old(sent) + [request]
        && sessionId == NextSession(old(sessionId), post(request))
        && r == Classify(Received(post(request)))
    {
      var status, response := MakeRequest("tools/call", SearchParams(text, k, score), DefaultRequestId, post);
      r := Classify((status, response));
    }
  }

  function InitializeRequest(endpoint: string, authToken: string): Request {
    Request(endpoint, RequestPayload("initialize", InitializeParams(), DefaultRequestId), BaseHeaders(authToken))
  }

  function SearchRequest(endpoint: string, authToken: string, session: Option<string>, text: string, k: int, score: real): Request {
    Request(endpoint, RequestPayload("tools/call", SearchParams(text, k, score), DefaultRequestId),
            HeadersFor(BaseHeaders(authToken), session))
  }

  predicate HasRequiredInputs(input: ToolInput) {
    input.text.Some? && input.apiEndpoint.Some? && input.authToken.Some?
  }

  /**
   * The similarity_search tool. `requests` is what was posted, in order.
   * A missing required input raises KeyError, reported as an error result.
   */
  method SimilaritySearchTool(toolUseId: string, input: ToolInput, post: Request -> HttpReply)
    returns (r: ToolResult, ghost requests: seq<Request>)
    ensures r.toolUseId == toolUseId
    ensures input.text.None? ==> r.body == Content(MissingInput("text"))
    ensures input.text.Some? && input.apiEndpoint.None? ==> r.body == Content(MissingInput("api_endpoint"))
    ensures input.text.Some? && input.apiEndpoint.Some? && input.authToken.None? ==> r.body == Content(MissingInput("auth_token"))
    ensures !HasRequiredInputs(input) ==> r.status == ToolErrored && requests == []
    ensures HasRequiredInputs(input) ==>
      var init := InitializeRequest(input.apiEndpoint.value, input.authToken.value);
      && |requests| >= 1 && requests[0] == init
      && (!Initialized(Received(post(init))) ==>
            r == ToolResult(toolUseId, ToolErrored, Content(InitializeFailed)) && |requests| == 1)
      && (Initialized(Received(post(init))) ==>
            var search := SearchRequest(input.apiEndpoint.value, input.authToken.value, NextSession(None, post(init)),
                                        input.text.value, input.k.GetOr(DefaultK), input.score.GetOr(DefaultScore));
            var reply := Classify(Received(post(search)));
            && requests == [init, search]
            && (reply.Malformed? ==> r == ToolResult(toolUseId, ToolErrored, Content(SearchRaised)))
            && (!reply.Malformed? ==> r == ToolResult(toolUseId, ToolSucceeded, Results(reply))))
  {
    if input.text.None? {
      return ToolResult(toolUseId, ToolErrored, Content(MissingInput("text"))), [];
    }
    var k := input.k.GetOr(DefaultK);
    var scoreThreshold := input.score.GetOr(DefaultScore);
    if input.apiEndpoint.None? {
      return ToolResult(toolUseId, ToolErrored, Content(MissingInput("api_endpoint"))), [];
    }
    if input.authToken.None? {
      return ToolResult(toolUseId, ToolErrored, Content(MissingInput("auth_token"))), [];
    }
    var client := new MCPClient(input.apiEndpoint.value, input.authToken.value);
    var ok := client.Initialize(post);
    if !ok {
      return ToolResult(toolUseId, ToolErrored, Content(InitializeFailed)), client.sent;
    }
    var results := client.SimilaritySearch(input.text.value, k, scoreThreshold, post);
    requests := client.sent;
    if results.Malformed? {
      return ToolResult(toolUseId, ToolErrored, Content(SearchRaised)), requests;
    }
    r := ToolResult(toolUseId, ToolSucceeded, Results(results));
  }
}
