/**
 * The Vercel BOKads search function (api/bokads/search.js). The handler sets
 * the CORS headers, answers a preflight, refuses other methods and a missing
 * `spec`, and otherwise replies 200 with whatever fetchRealBOKadsData gives:
 * that helper POSTs one fixed JSON-RPC envelope upstream and turns every
 * failure into an empty result with an explanatory message.
 */
module BokadsSearch {
  import opened Wrappers
  import opened Js
  import opened Http
  import opened BokadsFormat
  import McpClient

  const UpstreamUrl: string := "https://audience-agent.fly.dev/mcp/"
  const DefaultLimit: int := 5
  const DefaultSignalType: string := "marketplace"
  const DefaultPlatform: string := "LiveRamp (Bridge)"
  const FailurePrefix: string := "Failed to fetch real BOKads data: "
  const NotAList: string := "(data.result?.content || []).map is not a function"

  /** `req.query` with the three keys the handler reads; `limit` already parsed. */
  datatype Query = Query(spec: Option<string>, limit: Option<int>, principal: Option<string>)

  datatype Request = Request(httpMethod: string, query: Query)

  /** One element of the normalised `signals` list. */
  datatype Signal = Signal(
    name: Option<Json>,
    signalType: Json,
    platform: Json,
    coverage: string,
    cpm: string,
    id: Option<Json>,
    source: string,
    description: Json)

  /** The object fetchRealBOKadsData returns. */
  datatype SearchResult = SearchResult(
    signals: seq<Signal>,
    proposals: Json,
    message: string,
    contextId: ContextId)

  datatype ReplyBody = ErrorBody(error: string) | Results(result: SearchResult)

  /** What the handler leaves in `res`, and the upstream request it makes, if any. */
  datatype Response = Response(status: int, payload: Payload<ReplyBody>, upstream: Option<Outgoing>)

  // ----- fetchRealBOKadsData -----

  /** The JSON-RPC envelope POSTed upstream. */
  function SearchEnvelope(spec: string, limit: int): Json
  {
    Obj(map[
      "jsonrpc" := Str("2.0"),
      "id" := Num(1.0),
      "method" := Str("tools/call"),
      "params" := SearchParams(spec, limit)])
  }

  function SearchParams(spec: string, limit: int): Json
  {
    Obj(map[
      "name" := Str("search_signals"),
      "arguments" := Obj(map["spec" := Str(spec), "limit" := Num(limit as real)])])
  }

  function UpstreamRequest(spec: string, limit: int): Outgoing
  {
    Outgoing(UpstreamUrl, "POST", [("Content-Type", "application/json")], Some(SearchEnvelope(spec, limit)))
  }

  /** The `.map` callback: one upstream signal, or the TypeError it raises. */
  function NormaliseSignal(signal: Json, spec: string): (r: Result<Signal>)
    ensures r.Err? <==>
      signal == Null
      || Coverage(Property(Some(signal), "coverage_percentage")).Err?
      || Cpm(Property(Some(signal), "pricing")).Err?
    ensures r.Ok? ==>
      var field := (key: string) => Property(Some(signal), key);
      && r.value.source == Source
      && r.value.name == field("name")
      && r.value.id == field("signals_agent_segment_id")
      && r.value.signalType == (if Truthy(field("signal_type")) then field("signal_type").value else Str(DefaultSignalType))
      && r.value.platform == (if Truthy(field("data_provider")) then field("data_provider").value else Str(DefaultPlatform))
      && r.value.description == (if Truthy(field("description")) then field("description").value else Str(DefaultDescription(spec)))
      && (r.value.coverage == Unknown <==> !Truthy(field("coverage_percentage")))
      && (r.value.cpm == Unknown <==> !Truthy(Property(field("pricing"), "cpm")))
  {
    if signal == Null then Err(NullReadMessage("name"))
    else
      var coverage := Coverage(Property(Some(signal), "coverage_percentage"));
      var cpm := Cpm(Property(Some(signal), "pricing"));
      if coverage.Err? then Err(coverage.error)
      else if cpm.Err? then Err(cpm.error)
      else Ok(Signal(
        Property(Some(signal), "name"),
        Or(Property(Some(signal), "signal_type"), Str(DefaultSignalType)),
        Or(Property(Some(signal), "data_provider"), Str(DefaultPlatform)),
        coverage.value,
        cpm.value,
        Property(Some(signal), "signals_agent_segment_id"),
        Source,
        Or(Property(Some(signal), "description"), Str(DefaultDescription(spec)))))
  }

  /** `(data.result?.content || []).map(normalise)` once the list is known to be an array. */
  function NormaliseAll(items: seq<Json>, spec: string): Result<seq<Signal>>
  {
    MapOrThrow((signal: Json) => NormaliseSignal(signal, spec), items)
  }


  /** The part of the try block after the envelope has been accepted. */
  function Extract(data: Json, spec: string): Result<SearchResult>
  {
    var result := Property(Some(data), "result");
    var list := Or(Property(result, "content"), Arr([]));
    if !list.Arr? then Err(NotAList)
    else
      var signals := NormaliseAll(list.items, spec);
      if signals.Err? then Err(signals.error)
      else Ok(SearchResult(
        signals.value,
        Or(Property(result, "custom_segment_proposals"), Arr([])),
        FoundMessage(|signals.value|, spec),
        Generated("bokads_real")))
  }

  /** The try block of fetchRealBOKadsData: a result, or the message of what it threw. */
  function TryFetch(spec: string, response: FetchResult): Result<SearchResult>
  {
    match response
    case Rejected(message) => Err(message)
    case Reply(status, _, _, body) =>
      if !OkStatus(status) then Err("HTTP error! status: " + IntToString(status))
      else match body
        case Unparsable(message) => Err(message)
        case Parsed(data) =>
          match Dot(data, "error")
          case Err(message) => Err(message)
          case Ok(e) =>
            if Truthy(e) then Err("MCP error: " + JsText(Property(e, "message")))
            else Extract(data, spec)
  }

  /** fetchRealBOKadsData: never throws; a failure becomes an empty result. */
  function FetchRealBokadsData(spec: string, response: FetchResult): (r: SearchResult)
    ensures StartsWith(r.message, FailurePrefix) <==> TryFetch(spec, response).Err?
    ensures TryFetch(spec, response).Err? ==>
      && r.signals == [] && r.proposals == Arr([])
      && r.message == FailurePrefix + TryFetch(spec, response).error
      && r.contextId == Generated("bokads_error")
    ensures TryFetch(spec, response).Ok? ==>
      r.message == FoundMessage(|r.signals|, spec) && r.contextId == Generated("bokads_real")
  {
    match TryFetch(spec, response)
    case Ok(result) =>
      assert result.message[1] != FailurePrefix[1];
      result
    case Err(message) =>
      var text := FailurePrefix + message;
      assert text[..|FailurePrefix|] == FailurePrefix;
      SearchResult([], Arr([]), text, Generated("bokads_error"))
  }

  // ----- handler -----

  const CorsHeaders: map<string, string> := map[
    "Access-Control-Allow-Origin" := "*",
    "Access-Control-Allow-Methods" := "GET, POST, OPTIONS",
    "Access-Control-Allow-Headers" := "Content-Type"]

  /** The handler's decision table, in source order. */
  function Respond(req: Request, response: FetchResult): Response
  {
    if req.httpMethod == "OPTIONS" then Response(200, NoContent, None)
    else if req.httpMethod != "GET" then Response(405, JsonBody(ErrorBody("Method not allowed")), None)
    else if req.query.spec.None? || req.query.spec.value == "" then
      Response(400, JsonBody(ErrorBody("Missing signal specification")), None)
    else
      var spec := req.query.spec.value;
      var limit := if req.query.limit.Some? then req.query.limit.value else DefaultLimit;
      Response(200, JsonBody(Results(FetchRealBokadsData(spec, response))), Some(UpstreamRequest(spec, limit)))
  }

  /** `handler(req, res)`, with the upstream fetch settled as `response`. */
  method Handler(req: Request, response: FetchResult, res: ServerResponse<ReplyBody>)
    returns (upstream: Option<Outgoing>)
    modifies res
    ensures res.headers == old(res.headers) + CorsHeaders
    ensures res.statusCode == Respond(req, response).status
    ensures res.sent == Some(Respond(req, response).payload)
    ensures upstream == Respond(req, response).upstream
  {
    res.SetHeader("Access-Control-Allow-Origin", "*");
    res.SetHeader("Access-Control-Allow-Methods", "GET, POST, OPTIONS");
    res.SetHeader("Access-Control-Allow-Headers", "Content-Type");
    assert res.headers == old(res.headers) + CorsHeaders;

    if req.httpMethod == "OPTIONS" {
      res.Status(200);
      res.End();
      return None;
    }

    if req.httpMethod != "GET" {
      res.Status(405);
      res.SendJson(ErrorBody("Method not allowed"));
      return None;
    }

    var spec := req.query.spec;
    var limit := if req.query.limit.Some? then req.query.limit.value else DefaultLimit;
    if spec.None? || spec.value == "" {
      res.Status(400);
      res.SendJson(ErrorBody("Missing signal specification"));
      return None;
    }

    var data := FetchRealBokadsData(spec.value, response);
    res.Status(200);
    res.SendJson(Results(data));
    upstream := Some(UpstreamRequest(spec.value, limit));
  }

  // ----- Properties -----

  /**
   * Only a preflight, a refused method and a missing spec are answered with
   * anything but a search result, and no path ends in 500: every GET with a
   * spec gets 200 with what fetchRealBOKadsData returns, after one upstream
   * call whose limit defaults to 5.
   */
  lemma HandlerDecisionTable(req: Request, response: FetchResult)
    ensures var r := Respond(req, response);
      && (req.httpMethod == "OPTIONS" ==> r.status == 200 && r.payload == NoContent)
      && (req.httpMethod != "OPTIONS" && req.httpMethod != "GET" ==>
            r.status == 405 && r.payload == JsonBody(ErrorBody("Method not allowed")))
      && (req.httpMethod == "GET" && !Truthy(if req.query.spec.Some? then Some(Str(req.query.spec.value)) else None) ==>
            r.status == 400 && r.payload == JsonBody(ErrorBody("Missing signal specification")))
      && (r.status == 200 && r.payload.JsonBody? <==> req.httpMethod == "GET" && r.payload.value.Results?)
      && (req.httpMethod == "GET" && req.query.spec.Some? && req.query.spec.value != "" ==>
            var spec := req.query.spec.value;
            && r.status == 200
            && r.payload == JsonBody(Results(FetchRealBokadsData(spec, response)))
            && r.upstream == Some(UpstreamRequest(spec, if req.query.limit.Some? then req.query.limit.value else 5)))
      && r.status in {200, 400, 405}
      && (r.upstream.Some? <==> r.payload.JsonBody? && r.payload.value.Results?)
  {
  }

  /** The upstream request is a JSON-RPC 2.0 "tools/call" of "search_signals" with id 1. */
  lemma UpstreamIsOneJsonRpcCall(spec: string, limit: int)
    ensures var call := UpstreamRequest(spec, limit);
      && call.url == UpstreamUrl && call.httpMethod == "POST"
      && McpClient.ParseRequest(call.body.value)
         == Some(McpClient.Request("2.0", McpClient.NumId(1), "tools/call", Some(SearchParams(spec, limit))))
      && Property(Property(call.body, "params"), "arguments")
         == Some(Obj(map["spec" := Str(spec), "limit" := Num(limit as real)]))
  {
    var envelope := SearchEnvelope(spec, limit);
    assert McpClient.ParseId(Num(1.0)) == Some(McpClient.NumId(1));
    assert Property(Some(envelope), "jsonrpc") == Some(Str("2.0"));
    assert Property(Some(envelope), "id") == Some(Num(1.0));
    assert Property(Some(envelope), "method") == Some(Str("tools/call"));
  }

  /**
   * Every failure the catch block takes (a rejected fetch, a non-ok status,
   * an undecodable body, a null envelope, an MCP error member) yields no
   * signals, no proposals and a message that names the failure after the
   * fixed prefix.
   */
  lemma FailureFallsBackToEmpty(spec: string, response: FetchResult)
    requires
      || response.Rejected?
      || (response.Reply? && !OkStatus(response.status))
      || (response.Reply? && OkStatus(response.status) && (response.body.Unparsable? || response.body == Parsed(Null)))
      || (response.Reply? && response.body.Parsed? && Truthy(Property(Some(response.body.value), "error")))
    ensures var r := FetchRealBokadsData(spec, response);
      && r.signals == [] && r.proposals == Arr([])
      && StartsWith(r.message, FailurePrefix)
      && (response.Rejected? ==> r.message == FailurePrefix + response.message)
      && (response.Reply? && !OkStatus(response.status) ==>
            r.message == FailurePrefix + "HTTP error! status: " + IntToString(response.status))
      && (response.Reply? && OkStatus(response.status) && response.body.Unparsable? ==>
            r.message == FailurePrefix + response.body.message)
      && (response.Reply? && OkStatus(response.status) && response.body == Parsed(Null) ==>
            r.message == FailurePrefix + NullReadMessage("error"))
  {
  }

  /**
   * On success the signals follow `result.content` element by element, a
   * missing content list gives no signals, the message counts them, and the
   * custom proposals pass through with [] as their default.
   */
  lemma SignalsFollowContent(spec: string, response: FetchResult)
    requires response.Reply? && OkStatus(response.status) && response.body.Parsed?
    requires TryFetch(spec, response).Ok?
    ensures var data := response.body.value;
      var content := Property(Property(Some(data), "result"), "content");
      var r := FetchRealBokadsData(spec, response);
      && r.message == FoundMessage(|r.signals|, spec)
      && r.proposals == Or(Property(Property(Some(data), "result"), "custom_segment_proposals"), Arr([]))
      && (!Truthy(content) ==> r.signals == [])
      && (Truthy(content) ==>
            content.value.Arr? && |r.signals| == |content.value.items|
            && forall i :: 0 <= i < |r.signals| ==> NormaliseSignal(content.value.items[i], spec) == Ok(r.signals[i]))
  {
  }
}
