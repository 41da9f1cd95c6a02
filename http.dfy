/**
 * The HTTP boundary of the handlers, as plain values: the settled result of
 * a `fetch` call, the request a handler sends upstream, and the Node/Vercel
 * `res` object a handler writes its reply into.
 */
module Http {
  import opened Wrappers
  import opened Js

  /** What `await response.json()` yields: a value, or the SyntaxError it throws. */
  datatype Body = Parsed(value: Json) | Unparsable(message: string)

  /**
   * A settled `fetch`: either the promise rejected (network failure) with an
   * error message, or a response arrived. `contentType` is
   * `response.headers.get('content-type')`, `None` when the header is absent.
   */
  datatype FetchResult =
    | Rejected(message: string)
    | Reply(status: int, statusText: string, contentType: Option<string>, body: Body)

  /** `response.ok` of the Fetch standard: a status in the range 200 to 299. */
  predicate OkStatus(status: int)
  {
    200 <= status <= 299
  }

  /** A request as handed to `fetch(url, init)`; `body` is `None` for a GET. */
  datatype Outgoing = Outgoing(url: string, httpMethod: string, headers: seq<(string, string)>, body: Option<Json>)

  /** What a handler has sent: nothing yet, an empty body (`res.end()`), or `res.json(v)`. */
  datatype Payload<+B> = NoContent | JsonBody(value: B)

  /**
   * The `res` object of a Node handler (Vercel and Express expose the same
   * calls used here). The status code starts at 200, as in Node.
   */
  class ServerResponse<B> {
    var headers: map<string, string>
    var statusCode: int
    var sent: Option<Payload<B>>

    constructor ()
      ensures headers == map[] && statusCode == 200 && sent == None
    {
      headers := map[];
      statusCode := 200;
      sent := None;
    }

    /** `res.setHeader(name, value)` replaces any earlier value of that header. */
    method SetHeader(name: string, value: string)
      modifies this`headers
      ensures headers == old(headers)[name := value]
    {
      headers := headers[name := value];
    }

    /** `res.status(code)` */
    method Status(code: int)
      modifies this`statusCode
      ensures statusCode == code
    {
      statusCode := code;
    }

    /** `res.end()` */
    method End()
      modifies this`sent
      ensures sent == Some(NoContent)
    {
      sent := Some(NoContent);
    }

    /** `res.json(value)` */
    method SendJson(value: B)
      modifies this`sent
      ensures sent == Some(JsonBody(value))
    {
      sent := Some(JsonBody(value));
    }
  }
}
