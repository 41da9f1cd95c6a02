/**
 * The Express route GET /api/bokads/search of the BOKads proxy
 * (bokads-proxy.js). It checks `spec`, builds the A2A query, fetches it,
 * maps any thrown error to 500, passes an upstream `error` member through as
 * a 500, and otherwise normalises `data.signals` and replies with the
 * default status. As written, a truthy `principal` makes the route reassign
 * a `const`, so that request always ends in the 500 branch.
 */
module BokadsProxy {
  import opened Wrappers
  import opened Js
  import opened Http
  import opened BokadsFormat

  const DefaultLimit: int := 5
  const DefaultSignalType: string := "Audience"
  const SearchFailed: string := "BOKads search failed"
  const MissingSpec: string := "Missing signal specification"
  /** The TypeError V8 raises for `a2aUrl += ...` on the `const a2aUrl`. */
  const ConstAssignment: string := "Assignment to constant variable."
  const NotAList: string := "(data.signals || []).map is not a function"

  /** `req.query` with the keys the route reads; `limit` already parsed. */
  datatype Query = Query(spec: Option<string>, limit: Option<int>, principal: Option<string>)

  /** The A2A GET request: its `query` and `max_results` URL parameters. */
  datatype A2aCall = A2aCall(query: string, maxResults: int)

  /** One element of the normalised `signals` list; `platform` has no default here. */
  datatype Signal = Signal(
    name: Option<Json>,
    signalType: Json,
    platform: Option<Json>,
    coverage: string,
    cpm: string,
    id: Option<Json>,
    source: string,
    description: Json)

  /** `responseData` of the route. */
  datatype ProxyResult = ProxyResult(
    signals: seq<Signal>,
    proposals: Json,
    message: Json,
    contextId: ContextId)

  datatype ReplyBody =
    | ErrorBody(error: string)
    | Failure(error: string, details: Json)
    | Results(result: ProxyResult)

  /** What the route leaves in `res`, and the A2A request it makes, if any. */
  datatype Response = Response(status: int, body: ReplyBody, upstream: Option<A2aCall>)

  /** The `.map` callback of the route. */
  function NormaliseSignal(signal: Json, spec: string): (r: Result<Signal>)
    ensures r.Err? <==>
      signal == Null
      || Coverage(Property(Some(signal), "coverage_percentage")).Err?
      || Cpm(Property(Some(signal), "pricing")).Err?
    ensures r.Ok? ==>
      var field := (key: string) => Property(Some(signal), key);
      && r.value.source == Source
      && r.value.name == field("name")
      && r.value.id == field("id")
      && r.value.platform == field("data_provider")
      && r.value.signalType == (if Truthy(field("signal_type")) then field("signal_type").value else Str(DefaultSignalType))
      && r.value.description == (if Truthy(field("description")) then field("description").value else Str(DefaultDescription(spec)))
      && (r.value.coverage == Unknown <==> !Truthy(field("coverage_percentage")))
      && (r.value.cpm == Unknown <==> !Truthy(Property(field("pricing"), "cpm")))
  {
    if signal == Null then Err(NullReadMessage("name"))
    else
      var coverage := Coverage(Property(Some(signal), "coverage_percentage"));
      var cpm := Cpm(Property(Some(signal), "pricing"));
      if coverage.Err? then Err(coverage.error)
      else if cpm.Err? then Err(cpm.error)
      else Ok(Signal(
        Property(Some(signal), "name"),
        Or(Property(Some(signal), "signal_type"), Str(DefaultSignalType)),
        Property(Some(signal), "data_provider"),
        coverage.value,
        cpm.value,
        Property(Some(signal), "id"),
        Source,
        Or(Property(Some(signal), "description"), Str(DefaultDescription(spec)))))
  }

  /** `(data.signals || []).map(normalise)` once the list is known to be an array. */
  function NormaliseAll(items: seq<Json>, spec: string): Result<seq<Signal>>
  {
    MapOrThrow((signal: Json) => NormaliseSignal(signal, spec), items)
  }

  /** `responseData`, built once the signals are normalised. */
  function Assemble(data: Json, signals: seq<Signal>, spec: string): ProxyResult
  {
    var contextId := Property(Some(data), "context_id");
    ProxyResult(
      signals,
      Or(Property(Some(data), "custom_segment_proposals"), Arr([])),
      Or(Property(Some(data), "message"), Str(FoundMessage(|signals|, spec))),
      if Truthy(contextId) then Supplied(contextId.value) else Generated("bokads_real"))
  }

  /**
   * The try block from the fetch on: the status and body the route sends, or
   * the message of the error thrown into the catch block.
   */
  function AfterFetch(spec: string, response: FetchResult): Result<(int, ReplyBody)>
  {
    match response
    case Rejected(message) => Err(message)
    case Reply(status, statusText, _, body) =>
      if !OkStatus(status) then Err("A2A endpoint returned " + IntToString(status) + ": " + statusText)
      else match body
        case Unparsable(message) => Err(message)
        case Parsed(data) =>
          match Dot(data, "error")
          case Err(message) => Err(message)
          case Ok(e) =>
            if Truthy(e) then Ok((500, Failure(SearchFailed, e.value)))
            else
              var list := Or(Property(Some(data), "signals"), Arr([]));
              if !list.Arr? then Err(NotAList)
              else
                var signals := NormaliseAll(list.items, spec);
                if signals.Err? then Err(signals.error)
                else Ok((200, Results(Assemble(data, signals.value, spec))))
  }

  /** The route's decision table, with the catch block folded in. */
  function Route(q: Query, response: FetchResult): Response
  {
    if q.spec.None? || q.spec.value == "" then Response(400, ErrorBody(MissingSpec), None)
    else if q.principal.Some? && q.principal.value != "" then
      Response(500, Failure(SearchFailed, Str(ConstAssignment)), None)
    else
      var call := A2aCall(q.spec.value, if q.limit.Some? then q.limit.value else DefaultLimit);
      match AfterFetch(q.spec.value, response)
      case Err(message) => Response(500, Failure(SearchFailed, Str(message)), Some(call))
      case Ok((status, body)) => Response(status, body, Some(call))
  }

  /** The route handler, given a fresh `res` and the settled A2A fetch. */
  method Search(q: Query, response: FetchResult, res: ServerResponse<ReplyBody>)
    returns (upstream: Option<A2aCall>)
    requires res.statusCode == 200
    modifies res
    ensures res.statusCode == Route(q, response).status
    ensures res.sent == Some(JsonBody(Route(q, response).body))
    ensures res.headers == old(res.headers)
    ensures upstream == Route(q, response).upstream
  {
    var spec := q.spec;
    var limit := if q.limit.Some? then q.limit.value else DefaultLimit;
    if spec.None? || spec.value == "" {
      res.Status(400);
      res.SendJson(ErrorBody(MissingSpec));
      return None;
    }

    // `a2aUrl += ...` assigns to a const: the TypeError goes to the catch block.
    if q.principal.Some? && q.principal.value != "" {
      res.Status(500);
      res.SendJson(Failure(SearchFailed, Str(ConstAssignment)));
      return None;
    }

    upstream := Some(A2aCall(spec.value, limit));
    var thrown: string;
    match response {
      case Rejected(message) =>
        thrown := message;
      case Reply(status, statusText, _, body) =>
        if !OkStatus(status) {
          thrown := "A2A endpoint returned " + IntToString(status) + ": " + statusText;
        } else if body.Unparsable? {
          thrown := body.message;
        } else if body.value == Null {
          thrown := NullReadMessage("error");
        } else {
          var data := body.value;
          var e := Property(Some(data), "error");
          if Truthy(e) {
            res.Status(500);
            res.SendJson(Failure(SearchFailed, e.value));
            return;
          }
          var list := Or(Property(Some(data), "signals"), Arr([]));
          if !list.Arr? {
            thrown := NotAList;
          } else {
            var signals := NormaliseAll(list.items, spec.value);
            if signals.Err? {
              thrown := signals.error;
            } else {
              res.SendJson(Results(Assemble(data, signals.value, spec.value)));
              return;
            }
          }
        }
    }

    // The catch block.
    res.Status(500);
    res.SendJson(Failure(SearchFailed, Str(thrown)));
  }

  // ----- Properties -----

  /** A missing or empty spec is refused before anything is fetched. */
  lemma MissingSpecIsRefused(q: Query, response: FetchResult)
    requires q.spec.None? || q.spec.value == ""
    ensures Route(q, response) == Response(400, ErrorBody(MissingSpec), None)
  {
  }

  /**
   * Supplying a principal always fails with 500, whatever the A2A endpoint
   * would have answered, and no A2A request is made.
   */
  lemma PrincipalAlwaysFails(q: Query, a: FetchResult, b: FetchResult)
    requires q.spec.Some? && q.spec.value != ""
    requires q.principal.Some? && q.principal.value != ""
    ensures Route(q, a) == Route(q, b)
    ensures Route(q, a) == Response(500, Failure(SearchFailed, Str(ConstAssignment)), None)
  {
  }

  /** A failed fetch or a non-ok status gives 500 with the thrown message as details. */
  lemma UpstreamFailureIs500(q: Query, response: FetchResult)
    requires q.spec.Some? && q.spec.value != "" && (q.principal.None? || q.principal.value == "")
    requires response.Rejected? || !OkStatus(response.status)
    ensures var r := Route(q, response);
      && r.status == 500 && r.upstream.Some?
      && r.body == Failure(SearchFailed, Str(
           if response.Rejected? then response.message
           else "A2A endpoint returned " + IntToString(response.status) + ": " + response.statusText))
  {
  }

  /** An upstream `error` member is passed through as the 500 details; no data is sent. */
  lemma ErrorMemberPassedThrough(q: Query, response: FetchResult)
    requires q.spec.Some? && q.spec.value != "" && (q.principal.None? || q.principal.value == "")
    requires response.Reply? && OkStatus(response.status) && response.body.Parsed?
    requires Truthy(Property(Some(response.body.value), "error"))
    ensures Route(q, response).status == 500
    ensures Route(q, response).body
      == Failure(SearchFailed, Property(Some(response.body.value), "error").value)
  {
  }

  /**
   * A request with a spec and no principal whose A2A reply is ok, decodes to
   * a non-null value without an `error` member, and whose signals normalise
   * is answered 200 with the results: the signals follow `data.signals`
   * element by element (none when the list is missing), proposals default
   * to [], and message and context id take the upstream values when truthy,
   * else the defaults.
   */
  lemma SuccessFollowsSignals(q: Query, response: FetchResult)
    requires q.spec.Some? && q.spec.value != "" && (q.principal.None? || q.principal.value == "")
    requires response.Reply? && OkStatus(response.status)
    requires response.body.Parsed? && response.body.value != Null
    requires !Truthy(Property(Some(response.body.value), "error"))
    requires AfterFetch(q.spec.value, response).Ok?
    ensures var r := Route(q, response);
      && r.status == 200 && r.body.Results?
      && r.upstream == Some(A2aCall(q.spec.value, if q.limit.Some? then q.limit.value else 5))
      && var data := response.body.value;
         var list := Property(Some(data), "signals");
         var result := r.body.result;
         && (!Truthy(list) ==> result.signals == [])
         && (Truthy(list) ==>
               list.value.Arr? && |result.signals| == |list.value.items|
               && forall i :: 0 <= i < |result.signals| ==>
                    NormaliseSignal(list.value.items[i], q.spec.value) == Ok(result.signals[i]))
         && result.proposals == Or(Property(Some(data), "custom_segment_proposals"), Arr([]))
         && (Truthy(Property(Some(data), "message")) ==> result.message == Property(Some(data), "message").value)
         && (!Truthy(Property(Some(data), "message")) ==>
               result.message == Str(FoundMessage(|result.signals|, q.spec.value)))
         && var c := Property(Some(data), "context_id");
            result.contextId == (if Truthy(c) then Supplied(c.value) else Generated("bokads_real"))
  {
  }

  /** Once past the spec and principal checks, one A2A request carries the spec and a limit defaulting to 5. */
  lemma A2aCallCarriesSpecAndLimit(q: Query, response: FetchResult)
    requires q.spec.Some? && q.spec.value != "" && (q.principal.None? || q.principal.value == "")
    ensures Route(q, response).upstream
      == Some(A2aCall(q.spec.value, if q.limit.Some? then q.limit.value else 5))
  {
  }

  /**
   * Every error thrown inside the try block after the fetch ends in the
   * catch block: a rejected fetch, a non-ok status, an undecodable body, a
   * null body, a `signals` member that is not a list, or a signal whose
   * normalisation throws; each gives 500 with the error's message as details.
   */
  lemma ThrownErrorsAre500(q: Query, response: FetchResult)
    requires q.spec.Some? && q.spec.value != "" && (q.principal.None? || q.principal.value == "")
    ensures var spec := q.spec.value;
      var thrown := AfterFetch(spec, response);
      && (thrown.Err? <==>
            || response.Rejected?
            || !OkStatus(response.status)
            || response.body.Unparsable?
            || response.body.value == Null
            || (!Truthy(Property(Some(response.body.value), "error"))
                && var list := Or(Property(Some(response.body.value), "signals"), Arr([]));
                   !list.Arr? || NormaliseAll(list.items, spec).Err?))
      && (response.Reply? && OkStatus(response.status) && response.body.Unparsable? ==>
            thrown == Err(response.body.message))
      && (response.Reply? && OkStatus(response.status) && response.body == Parsed(Null) ==>
            thrown == Err(NullReadMessage("error")))
      && (thrown.Err? ==>
            Route(q, response) == Response(500, Failure(SearchFailed, Str(thrown.error)),
              Some(A2aCall(spec, if q.limit.Some? then q.limit.value else 5))))
  {
  }
}
