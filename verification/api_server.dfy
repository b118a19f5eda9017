/**
 The test suite's stand-in for Discord's user endpoint (`DiscordApiMock`):
 one route, `GET /users/@me`, which returns its configured user to a bearer
 of its configured access token. It has no state that requests change.
 */
module ApiServer {
  import opened JavaBasics
  import opened JavaStrings
  import opened Http
  import opened MockServer
  import Entities

  datatype ApiMock = ApiMock(userAccessToken: Option<string>, user: Entities.DiscordUser)

  const AuthorizationError: string := "invalid_request"
  const AuthorizationErrorDescription: string := "Missing or invalid Authorization header"
  const TokenError: string := "invalid_token"
  const TokenErrorDescription: string := "Invalid access token"

  /** The token a request carries: the Authorization header's value after a
      leading `Bearer `, or `None` when the header is missing or does not
      start with it. */
  function BearerToken(req: MockRequest): (t: Option<string>)
    ensures t.Some? <==>
      HeaderValue(req.headers, "Authorization").Some?
        && StartsWith(HeaderValue(req.headers, "Authorization").value, "Bearer ")
    ensures t.Some? ==> HeaderValue(req.headers, "Authorization") == Some("Bearer " + t.value)
  {
    var auth := HeaderValue(req.headers, "Authorization");
    if auth.None? || !StartsWith(auth.value, "Bearer ") then None
    else
      assert auth.value == auth.value[..7] + auth.value[7..];
      Some(auth.value[7..])
  }

  /** `handleGetUser`: a missing or non-bearer Authorization header, then a
      token other than the configured one, are each rejected with their own
      error; otherwise the configured user, with status 200 and no content
      type set by the handler. A configured null token accepts no request. */
  function HandleGetUser(api: ApiMock, req: MockRequest): (r: Reply)
    ensures r.Reply?
    ensures r.status == 200 <==> Some(BearerToken(req).GetOr("")) == api.userAccessToken && BearerToken(req).Some?
    ensures r.status == 200 ==> r.payload == UserPayload(api.user) && r.contentType.None?
    ensures r.status != 200 ==>
      r.status == 400 && r.contentType == Some("application/json")
        && r.payload.ErrorPayload? && r.payload.errorDescription.Some?
    ensures BearerToken(req).None? ==>
      r == ErrorReply("invalid_request", Some("Missing or invalid Authorization header"))
    ensures BearerToken(req).Some? && Some(BearerToken(req).value) != api.userAccessToken ==>
      r == ErrorReply("invalid_token", Some("Invalid access token"))
  {
    match BearerToken(req)
    case None => ErrorReply(AuthorizationError, Some(AuthorizationErrorDescription))
    case Some(token) =>
      if Some(token) != api.userAccessToken then ErrorReply(TokenError, Some(TokenErrorDescription))
      else Reply(200, None, UserPayload(api.user))
  }

  /** The server's one route. */
  function Serve(api: ApiMock, req: MockRequest): (r: Reply)
    ensures req.verb == GET && req.path == "/users/@me" ==> r == HandleGetUser(api, req)
    ensures !(req.verb == GET && req.path == "/users/@me") ==> r == NoRoute
  {
    if req.verb == GET && req.path == "/users/@me" then HandleGetUser(api, req) else NoRoute
  }

  /** The header name is matched without regard to case, as a servlet
      container does. */
  lemma AuthorizationHeaderNameIgnoresCase(api: ApiMock, token: string, body: string)
    ensures
      var req := MockRequest(GET, "/users/@me", [Header("authorization", "Bearer " + token)], body);
      HandleGetUser(api, req).status == 200 <==> api.userAccessToken == Some(token)
  {
    var h := Header("authorization", "Bearer " + token);
    assert EqualsIgnoreCase(h.name, "Authorization");
    assert ("Bearer " + token)[..7] == "Bearer ";
    assert ("Bearer " + token)[7..] == token;
  }

  /** Any other scheme is refused as a missing header, even with the right token. */
  lemma OtherSchemeRejected(api: ApiMock, token: string)
    ensures
      var req := MockRequest(GET, "/users/@me", [Header("Authorization", "Basic " + token)], "");
      HandleGetUser(api, req) == ErrorReply("invalid_request", Some("Missing or invalid Authorization header"))
  {
    var v := "Basic " + token;
    assert v[0] == 'B' && v[1] == 'a';
    assert !StartsWith(v, "Bearer ");
  }
}
