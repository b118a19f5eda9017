/**
 What the two test servers share: the request as a server handler sees it,
 the JSON payloads they answer with, and their common error reply. A server
 is a state machine: each request yields a reply and the server's next state.
 */
module MockServer {
  import opened JavaBasics
  import opened Http
  import opened JavaLong
  import Entities

  const JsonContentType: string := "application/json"

  /** A request as the handler sees it: the route it arrived on, its headers
      and its body text (empty when nothing was sent). */
  datatype MockRequest = MockRequest(verb: RequestMethod, path: string, headers: seq<Header>, body: string)

  /** The JSON object a handler writes. */
  datatype Payload =
    | ErrorPayload(error: string, errorDescription: Option<string>)
    | TokenPayload(accessToken: string, tokenType: string, expiresIn: Long, refreshToken: string, scope: Option<string>)
    | EmptyObject
    | UserPayload(user: Entities.DiscordUser)

  /** A handler's outcome: a response it wrote, an exception it threw
      (which the server framework turns into an internal error), or no
      handler for the route. `contentType` is `None` when the handler does not
      set one. */
  datatype Reply =
    | Reply(status: int, contentType: Option<string>, payload: Payload)
    | Crash
    | NoRoute

  /** One request handled: the reply and the server's state afterwards. */
  datatype Step<S> = Step(reply: Reply, next: S)

  /** `processCtxAsError`: status 400, JSON, the error and its description. */
  function ErrorReply(error: string, errorDescription: Option<string>): (r: Reply)
    ensures r.Reply? && r.status == 400 && r.contentType == Some("application/json")
    ensures r.payload.ErrorPayload? && r.payload.error == error && r.payload.errorDescription == errorDescription
  {
    Reply(400, Some(JsonContentType), ErrorPayload(error, errorDescription))
  }

  /** Sending a built request to a test server whose URL is the request's base
      URL: the route is the endpoint, the headers are the client's default
      headers followed by the request's own, and the body is empty when the
      request has none. */
  function Transmit(req: ApiRequest): (m: MockRequest)
    ensures m.verb == req.verb && m.path == req.endpoint
    ensures |m.headers| == |req.defaultHeaders| + |req.headers|
    ensures m.headers[..|req.defaultHeaders|] == req.defaultHeaders
    ensures m.headers[|req.defaultHeaders|..] == req.headers
    ensures req.body.Some? ==> m.body == req.body.value
    ensures req.body.None? ==> m.body == ""
  {
    MockRequest(req.verb, req.endpoint, req.defaultHeaders + req.headers, req.body.GetOr(""))
  }
}
