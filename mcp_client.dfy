/**
 * The browser MCP client (src/mcpClient.ts): it frames a JSON-RPC 2.0
 * request, POSTs it to the fixed MCP endpoint, and classifies the settled
 * response in a fixed order: network failure, HTTP status, content type,
 * decoded body, then the envelope's `error` member. The fetch result is an
 * input; the request id (a clock reading in the source) is a parameter.
 */
module McpClient {
  import opened Wrappers
  import opened Js
  import opened Http

  const Endpoint: string := "https://audience-agent.fly.dev/mcp"
  const JsonMediaType: string := "application/json"
  const EventStream: string := "text/event-stream"
  const StreamMessage: string := "Received event stream response. Use connectSSE() for streaming calls."

  /** A JSON-RPC 2.0 id: a number or a string. */
  datatype Id = NumId(n: int) | StrId(s: string)

  /** The request object of section 4 of the JSON-RPC 2.0 Specification; `params` may be absent. */
  datatype Request = Request(jsonrpc: string, id: Id, methodName: string, params: Option<Json>)

  /** One entry of `deliver_to.platforms`. */
  datatype PlatformAccount = PlatformAccount(platform: string, account: Option<string>)

  datatype Platforms = AllPlatforms | Listed(entries: seq<PlatformAccount>)

  /** The optional delivery target of `getSignals`. */
  datatype DeliverTo = DeliverTo(platforms: Option<Platforms>, countries: Option<seq<string>>)

  /**
   * How `makeMcpCall` settles. The source throws one `Error` class whose
   * message tells these apart; each constructor is one of its throw sites
   * (or an exception it lets through), and `Success` is the returned envelope.
   */
  datatype Outcome =
    | Success(envelope: Json)
    | NetworkFailure(message: string)
    | HttpError(status: int)
    | StreamError
    | InvalidBody(message: string)
    | NullEnvelope
    | McpError(errorCode: Option<Json>, errorMessage: Option<Json>)

  /** One call of `makeMcpCall`: what is sent, and how it settles. */
  datatype Call = Call(request: Outgoing, outcome: Outcome)

  // ----- Request framing -----

  function IdJson(id: Id): Json
  {
    match id
    case NumId(n) => Num(n as real)
    case StrId(s) => Str(s)
  }

  /** `createJsonRpcRequest(method, params, id)` */
  function CreateJsonRpcRequest(methodName: string, params: Option<Json>, id: Id): (r: Request)
    ensures var wire := Some(RequestJson(r));
      && Property(wire, "jsonrpc") == Some(Str("2.0"))
      && Property(wire, "id") == Some(IdJson(id))
      && Property(wire, "method") == Some(Str(methodName))
      && Property(wire, "params") == params
  {
    Request("2.0", id, methodName, params)
  }

  /** The object JSON.stringify writes: an absent `params` leaves no key behind. */
  function RequestJson(r: Request): Json
  {
    var fields := map["jsonrpc" := Str(r.jsonrpc), "id" := IdJson(r.id), "method" := Str(r.methodName)];
    Obj(if r.params.Some? then fields["params" := r.params.value] else fields)
  }

  function ParseId(j: Json): Option<Id>
  {
    match j
    case Num(x) => if x == x.Floor as real then Some(NumId(x.Floor)) else None
    case Str(s) => Some(StrId(s))
    case _ => None
  }

  /** Reads a request object back from its JSON form. */
  function ParseRequest(j: Json): Option<Request>
  {
    var version := Property(Some(j), "jsonrpc");
    var id := Property(Some(j), "id");
    var name := Property(Some(j), "method");
    if version.Some? && version.value.Str? && id.Some? && ParseId(id.value).Some?
       && name.Some? && name.value.Str?
    then Some(Request(version.value.s, ParseId(id.value).value, name.value.s, Property(Some(j), "params")))
    else None
  }

  lemma RequestRoundTrip(r: Request)
    ensures ParseRequest(RequestJson(r)) == Some(r)
  {
    var fields := map["jsonrpc" := Str(r.jsonrpc), "id" := IdJson(r.id), "method" := Str(r.methodName)];
    var j := RequestJson(r);
    assert j.fields == if r.params.Some? then fields["params" := r.params.value] else fields;
    match r.id
    case NumId(n) => assert ParseId(IdJson(r.id)) == Some(NumId(n));
    case StrId(s) =>
  }

  // ----- getSignals parameters -----

  function AccountJson(p: PlatformAccount): Json
  {
    var fields := map["platform" := Str(p.platform)];
    Obj(if p.account.Some? then fields["account" := Str(p.account.value)] else fields)
  }

  function AccountsJson(entries: seq<PlatformAccount>): (r: seq<Json>)
    ensures |r| == |entries|
  {
    if entries == [] then [] else [AccountJson(entries[0])] + AccountsJson(entries[1..])
  }

  function StringsJson(ss: seq<string>): (r: seq<Json>)
    ensures |r| == |ss|
  {
    if ss == [] then [] else [Str(ss[0])] + StringsJson(ss[1..])
  }

  function PlatformsJson(p: Platforms): Json
  {
    match p
    case AllPlatforms => Str("all")
    case Listed(entries) => Arr(AccountsJson(entries))
  }

  /** The `deliver_to` value as serialised: absent members leave no key. */
  function DeliverToJson(d: DeliverTo): Json
  {
    var withPlatforms: map<string, Json> :=
      if d.platforms.Some? then map["platforms" := PlatformsJson(d.platforms.value)] else map[];
    Obj(if d.countries.Some? then withPlatforms["countries" := Arr(StringsJson(d.countries.value))]
        else withPlatforms)
  }

  function ParseAccount(j: Json): Option<PlatformAccount>
  {
    var platform := Property(Some(j), "platform");
    var account := Property(Some(j), "account");
    if platform.Some? && platform.value.Str? && (account.None? || account.value.Str?)
    then Some(PlatformAccount(platform.value.s, if account.Some? then Some(account.value.s) else None))
    else None
  }

  function ParseAccounts(items: seq<Json>): Option<seq<PlatformAccount>>
  {
    if items == [] then Some([])
    else
      var head := ParseAccount(items[0]);
      var tail := ParseAccounts(items[1..]);
      if head.Some? && tail.Some? then Some([head.value] + tail.value) else None
  }

  function ParseStrings(items: seq<Json>): Option<seq<string>>
  {
    if items == [] then Some([])
    else
      var tail := ParseStrings(items[1..]);
      if items[0].Str? && tail.Some? then Some([items[0].s] + tail.value) else None
  }

  function ParsePlatforms(j: Json): Option<Platforms>
  {
    match j
    case Str(s) => if s == "all" then Some(AllPlatforms) else None
    case Arr(items) =>
      var entries := ParseAccounts(items);
      if entries.Some? then Some(Listed(entries.value)) else None
    case _ => None
  }

  /** Reads a delivery target back from its JSON form. */
  function ParseDeliverTo(j: Json): Option<DeliverTo>
  {
    var platforms := Property(Some(j), "platforms");
    var countries := Property(Some(j), "countries");
    var ps := if platforms.Some? then ParsePlatforms(platforms.value) else None;
    var cs := if countries.Some? && countries.value.Arr? then ParseStrings(countries.value.items) else None;
    if j.Obj? && (platforms.None? || ps.Some?) && (countries.None? || cs.Some?)
    then Some(DeliverTo(if platforms.Some? then ps else None, if countries.Some? then cs else None))
    else None
  }

  lemma {:induction false} AccountsRoundTrip(entries: seq<PlatformAccount>)
    ensures ParseAccounts(AccountsJson(entries)) == Some(entries)
  {
    if entries != [] {
      var p := entries[0];
      var fields := map["platform" := Str(p.platform)];
      assert AccountJson(p).fields == if p.account.Some? then fields["account" := Str(p.account.value)] else fields;
      assert ParseAccount(AccountJson(p)) == Some(p);
      AccountsRoundTrip(entries[1..]);
      assert AccountsJson(entries)[1..] == AccountsJson(entries[1..]);
      assert [p] + entries[1..] == entries;
    }
  }

  lemma {:induction false} StringsRoundTrip(ss: seq<string>)
    ensures ParseStrings(StringsJson(ss)) == Some(ss)
  {
    if ss != [] {
      StringsRoundTrip(ss[1..]);
      assert StringsJson(ss)[1..] == StringsJson(ss[1..]);
      assert [ss[0]] + ss[1..] == ss;
    }
  }

  /** The serialised delivery target reads back as the one supplied. */
  lemma DeliverToRoundTrip(d: DeliverTo)
    ensures ParseDeliverTo(DeliverToJson(d)) == Some(d)
  {
    if d.platforms.Some? {
      match d.platforms.value
      case AllPlatforms =>
      case Listed(entries) => AccountsRoundTrip(entries);
    }
    if d.countries.Some? {
      StringsRoundTrip(d.countries.value);
    }
  }

  /** `arguments` of getSignals: `{query, ...(deliverTo ? {deliver_to: deliverTo} : {})}`. */
  function SignalArguments(query: string, deliverTo: Option<DeliverTo>): Json
  {
    var fields := map["query" := Str(query)];
    Obj(if deliverTo.Some? then fields["deliver_to" := DeliverToJson(deliverTo.value)] else fields)
  }

  function GetSignalsParams(query: string, deliverTo: Option<DeliverTo>): Json
  {
    Obj(map["name" := Str("get_signals"), "arguments" := SignalArguments(query, deliverTo)])
  }

  // ----- makeMcpCall -----

  /** The headers of every MCP call: JSON out, JSON accepted, never an event stream. */
  const RequestHeaders: seq<(string, string)> := [("Content-Type", JsonMediaType), ("Accept", JsonMediaType)]

  function McpPost(methodName: string, params: Option<Json>, id: Id): Outgoing
  {
    Outgoing(Endpoint, "POST", RequestHeaders, Some(RequestJson(CreateJsonRpcRequest(methodName, params, id))))
  }

  predicate IsEventStream(contentType: Option<string>)
  {
    contentType.Some? && Contains(contentType.value, EventStream)
  }

  /** The checks of `makeMcpCall` after the fetch settles, in source order. */
  function Classify(response: FetchResult): (o: Outcome)
    ensures response.Rejected? ==> o == NetworkFailure(response.message)
    ensures response.Reply? && !OkStatus(response.status) ==> o == HttpError(response.status)
    ensures o.StreamError? <==>
      response.Reply? && OkStatus(response.status) && IsEventStream(response.contentType)
    ensures o.Success? <==>
      && response.Reply? && OkStatus(response.status) && !IsEventStream(response.contentType)
      && response.body.Parsed? && response.body.value != Null
      && !Truthy(Property(Some(response.body.value), "error"))
    ensures o.Success? ==> o.envelope == response.body.value
    ensures o.InvalidBody? <==>
      response.Reply? && OkStatus(response.status) && !IsEventStream(response.contentType)
      && response.body.Unparsable?
    ensures o.InvalidBody? ==> o.message == response.body.message
    ensures o.NullEnvelope? <==>
      response.Reply? && OkStatus(response.status) && !IsEventStream(response.contentType)
      && response.body == Parsed(Null)
    ensures o.McpError? <==>
      && response.Reply? && OkStatus(response.status) && !IsEventStream(response.contentType)
      && response.body.Parsed? && response.body.value != Null
      && Truthy(Property(Some(response.body.value), "error"))
    ensures o.McpError? ==>
      var e := Property(Some(response.body.value), "error");
      o == McpError(Property(e, "code"), Property(e, "message"))
  {
    match response
    case Rejected(message) => NetworkFailure(message)
    case Reply(status, _, contentType, body) =>
      if !OkStatus(status) then HttpError(status)
      else if IsEventStream(contentType) then StreamError
      else match body
        case Unparsable(message) => InvalidBody(message)
        case Parsed(data) =>
          match Dot(data, "error")
          case Err(_) => NullEnvelope
          case Ok(e) =>
            if Truthy(e) then McpError(Property(e, "code"), Property(e, "message")) else Success(data)
  }

  /** `makeMcpCall(method, params)` with the id and the settled fetch supplied. */
  function MakeMcpCall(methodName: string, params: Option<Json>, id: Id, response: FetchResult): Call
  {
    Call(McpPost(methodName, params, id), Classify(response))
  }

  /** `listTools()` */
  function ListTools(id: Id, response: FetchResult): Call
  {
    MakeMcpCall("tools/list", None, id, response)
  }

  /** `getSignals(query, deliverTo)` */
  function GetSignals(query: string, deliverTo: Option<DeliverTo>, id: Id, response: FetchResult): Call
  {
    MakeMcpCall("tools/call", Some(GetSignalsParams(query, deliverTo)), id, response)
  }

  /** The message of the Error a failed call throws; `None` when the call returns. */
  function ErrorMessage(o: Outcome): Option<string>
  {
    match o
    case Success(_) => None
    case NetworkFailure(message) => Some(message)
    case HttpError(status) => Some("HTTP error! status: " + IntToString(status))
    case StreamError => Some(StreamMessage)
    case InvalidBody(message) => Some(message)
    case NullEnvelope => Some(NullReadMessage("error"))
    case McpError(code, message) => Some("MCP error: " + JsText(message) + " (code: " + JsText(code) + ")")
  }

  // ----- Properties -----

  /** Every call sends JSON and accepts only JSON: no header lists an event stream. */
  lemma RequestNeverAcceptsEventStream(methodName: string, params: Option<Json>, id: Id)
    ensures var h := McpPost(methodName, params, id).headers;
      && ("Content-Type", JsonMediaType) in h && ("Accept", JsonMediaType) in h
      && forall k :: 0 <= k < |h| ==> !Contains(h[k].1, EventStream)
  {
    var h := McpPost(methodName, params, id).headers;
    forall k | 0 <= k < |h| ensures !Contains(h[k].1, EventStream) {
      if Contains(h[k].1, EventStream) {
        ContainsNeedsRoom(h[k].1, EventStream);
        assert false;
      }
    }
  }

  /** listTools sends one request, for "tools/list", with no `params` key. */
  lemma ListToolsFraming(id: Id, response: FetchResult)
    ensures var call := ListTools(id, response);
      && call.request.url == Endpoint && call.request.httpMethod == "POST"
      && ParseRequest(call.request.body.value) == Some(Request("2.0", id, "tools/list", None))
      && Property(call.request.body, "params") == None
  {
    RequestRoundTrip(Request("2.0", id, "tools/list", None));
  }

  /**
   * getSignals sends "tools/call" for the tool "get_signals" with the query
   * verbatim; `deliver_to` is present exactly when a target is supplied, and
   * then reads back as that target.
   */
  lemma GetSignalsFraming(query: string, deliverTo: Option<DeliverTo>, id: Id, response: FetchResult)
    ensures var body := GetSignals(query, deliverTo, id, response).request.body;
      var params := Property(body, "params");
      var args := Property(params, "arguments");
      && Property(body, "method") == Some(Str("tools/call"))
      && Property(params, "name") == Some(Str("get_signals"))
      && Property(args, "query") == Some(Str(query))
      && (Property(args, "deliver_to").Some? <==> deliverTo.Some?)
      && (deliverTo.Some? ==> ParseDeliverTo(Property(args, "deliver_to").value) == deliverTo)
  {
    if deliverTo.Some? {
      DeliverToRoundTrip(deliverTo.value);
    }
  }

  /**
   * A non-ok status decides the outcome before anything else is looked at:
   * two responses with the same failing status settle alike whatever their
   * content types and bodies.
   */
  lemma HttpStatusDecidesFirst(a: FetchResult, b: FetchResult)
    requires a.Reply? && b.Reply? && a.status == b.status && !OkStatus(a.status)
    ensures Classify(a) == Classify(b) == HttpError(a.status)
  {
  }

  /** An event-stream reply fails the same way whatever its body holds. */
  lemma StreamDecidedBeforeBody(a: FetchResult, b: FetchResult)
    requires a.Reply? && b.Reply? && a.status == b.status && a.contentType == b.contentType
    requires OkStatus(a.status) && IsEventStream(a.contentType)
    ensures Classify(a) == Classify(b) == StreamError
  {
  }

  /** The thrown MCP error message names both the error's message and its code. */
  lemma McpErrorMessageCarriesCodeAndText(code: Option<Json>, message: Option<Json>)
    ensures var text := ErrorMessage(McpError(code, message));
      && text.Some? && StartsWith(text.value, "MCP error: ")
      && Contains(text.value, JsText(message)) && Contains(text.value, JsText(code))
  {
    var m, c := JsText(message), JsText(code);
    var prefix, middle := "MCP error: ", " (code: ";
    var text := prefix + m + middle + c + ")";
    assert ErrorMessage(McpError(code, message)) == Some(text);
    assert text[..|prefix|] == prefix;
    ContainsInfix(prefix, m, middle + c + ")");
    assert prefix + m + (middle + c + ")") == text;
    ContainsInfix(prefix + m + middle, c, ")");
  }

  /** A tools/list reply with a `result` is returned whole. */
  lemma ToolsListReplyReturnedWhole(tools: seq<Json>, contentType: Option<string>)
    requires !IsEventStream(contentType)
    ensures var envelope := Obj(map["jsonrpc" := Str("2.0"), "id" := Num(7.0),
                                    "result" := Obj(map["tools" := Arr(tools)])]);
      Classify(Reply(200, "OK", contentType, Parsed(envelope))) == Success(envelope)
  {
  }

  /** A reply typed application/json is never refused as an event stream. */
  lemma JsonReplyIsNeverStreamError(response: FetchResult)
    requires response.Reply? && response.contentType == Some(JsonMediaType)
    ensures Classify(response) != StreamError
  {
    if IsEventStream(Some(JsonMediaType)) {
      ContainsNeedsRoom(JsonMediaType, EventStream);
    }
  }

  /** A "Method not found" error envelope fails with its code and message. */
  lemma MethodNotFoundReplyFails(contentType: Option<string>)
    requires !IsEventStream(contentType)
    ensures var error := Obj(map["code" := Num(-32601.0), "message" := Str("Method not found")]);
      var envelope := Obj(map["jsonrpc" := Str("2.0"), "id" := Num(7.0), "error" := error]);
      Classify(Reply(200, "OK", contentType, Parsed(envelope)))
        == McpError(Some(Num(-32601.0)), Some(Str("Method not found")))
  {
  }
}
