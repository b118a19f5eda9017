/**
 The test suite's stand-in for Discord's token server
 (`DiscordOAuthServerMock`). It is configured with one client id, secret,
 code, redirect URL and scope; it remembers the last access and refresh
 token it issued. The token route handles the authorization-code and
 refresh grants; the revocation route forgets both tokens. The random tokens
 it issues are passed in as `issued`.
 */
module OAuthServer {
  import opened JavaBasics
  import opened Http
  import opened FormEncoding
  import opened MockServer
  import opened JavaLong

  const TokenType: string := "Bearer"

  /** Seven days, the lifetime every issued token is given. */
  const ExpiresIn: Long := 604800

  datatype OAuthMock = OAuthMock(
    clientId: Option<string>,
    clientSecret: Option<string>,
    code: Option<string>,
    redirectUrl: Option<string>,
    scope: Option<string>,
    lastAccessToken: Option<string>,
    lastRefreshToken: Option<string>)

  /** The two tokens the server would generate for the next grant. */
  datatype TokenPair = TokenPair(accessToken: string, refreshToken: string)

  /** A new server has issued nothing yet. */
  function NewOAuthMock(clientId: Option<string>, clientSecret: Option<string>, code: Option<string>,
                        redirectUrl: Option<string>, scope: Option<string>): (m: OAuthMock)
    ensures m.lastAccessToken.None? && m.lastRefreshToken.None?
    ensures SameConfiguration(m, OAuthMock(clientId, clientSecret, code, redirectUrl, scope, None, None))
  {
    OAuthMock(clientId, clientSecret, code, redirectUrl, scope, None, None)
  }

  /** The configuration, everything but the issued tokens, is the same. */
  predicate SameConfiguration(a: OAuthMock, b: OAuthMock)
  {
    a.(lastAccessToken := b.lastAccessToken, lastRefreshToken := b.lastRefreshToken) == b
  }

  /** A supplied value is accepted when it is present and equals the expected
      one; a null expected value accepts nothing. */
  predicate Accepts(supplied: Option<string>, expected: Option<string>)
  {
    supplied.Some? && supplied == expected
  }

  const ContentTypeError: string := "invalid_request (contentType is null or is not application/x-www-form-urlencoded)"
  const ClientIdError: string := "invalid_client (client_id is missing or unknown)"
  // The closing parenthesis is missing in the server's own message.
  const ClientSecretError: string := "invalid_client (client_secret is missing or unknown"
  const MissingGrantError: string := "unsupported_grant_type (grant_type is missing)"
  const RedirectError: string := "invalid_request (redirect_url is missing or unknown)"
  const CodeError: string := "invalid_request (code is missing or unknown)"
  const NoRefreshTokenError: string := "invalid_request (lastRefreshToken is null (you must fetch tokens before refreshing them!))"
  const RefreshTokenError: string := "invalid_request (refresh_token is missing or unknown)"
  const UnknownGrantError: string := "unsupported_grant_type (grant_type is not authorization_code or refresh_token)"
  const RevokeTokenError: string := "unsupported_grant_type (requestToken is missing or unknown (check if access_token is passed))"

  /** The request declares the form content type, exactly. */
  predicate FormContent(req: MockRequest)
  {
    HeaderValue(req.headers, "Content-Type") == Some(FormContentType)
  }

  /** The client is authenticated: its id and secret match the configuration. */
  predicate Authenticated(m: OAuthMock, fs: seq<Field>)
  {
    Accepts(Lookup(fs, "client_id"), m.clientId) && Accepts(Lookup(fs, "client_secret"), m.clientSecret)
  }

  /** A valid authorization-code exchange (section 4.1.3 of RFC 6749): the
      redirect URI and the code are the configured ones. */
  predicate ValidCodeExchange(m: OAuthMock, fs: seq<Field>)
  {
    && Authenticated(m, fs)
    && Lookup(fs, "grant_type") == Some("authorization_code")
    && Accepts(Lookup(fs, "redirect_uri"), m.redirectUrl)
    && Accepts(Lookup(fs, "code"), m.code)
  }

  /** A valid refresh (section 6 of RFC 6749): the refresh token is the last
      one issued. */
  predicate ValidRefresh(m: OAuthMock, fs: seq<Field>)
  {
    && Authenticated(m, fs)
    && Lookup(fs, "grant_type") == Some("refresh_token")
    && Accepts(Lookup(fs, "refresh_token"), m.lastRefreshToken)
  }

  /** The success reply of both grants. */
  function TokenReply(m: OAuthMock, issued: TokenPair): (r: Reply)
    ensures r.Reply? && r.status == 200 && r.contentType == Some("application/json")
    ensures r.payload == TokenPayload(issued.accessToken, "Bearer", 604800, issued.refreshToken, m.scope)
  {
    Reply(200, Some(JsonContentType), TokenPayload(issued.accessToken, TokenType, ExpiresIn, issued.refreshToken, m.scope))
  }

  function Issue(m: OAuthMock, issued: TokenPair): Step<OAuthMock>
  {
    Step(TokenReply(m, issued), m.(lastAccessToken := Some(issued.accessToken), lastRefreshToken := Some(issued.refreshToken)))
  }

  function Reject(m: OAuthMock, error: string, errorDescription: Option<string>): Step<OAuthMock>
  {
    Step(ErrorReply(error, errorDescription), m)
  }

  /** What the token route does with a body it has read into fields: the
      client id, the client secret and the presence of a grant type are
      checked in that order, then the grant's own checks; the first that
      fails decides the error. A grant that succeeds issues `issued` as the
      last access and refresh tokens. */
  function GrantToken(m: OAuthMock, fs: seq<Field>, issued: TokenPair): (s: Step<OAuthMock>)
    ensures s.reply.Reply?
    ensures s.reply.status == 200 <==> ValidCodeExchange(m, fs) || ValidRefresh(m, fs)
    ensures s.reply.status == 200 ==>
      s.reply == TokenReply(m, issued)
        && s.next == m.(lastAccessToken := Some(issued.accessToken), lastRefreshToken := Some(issued.refreshToken))
    ensures s.reply.status != 200 ==> s.next == m && s.reply.status == 400 && s.reply.payload.ErrorPayload?
    // Which check fails first decides the error.
    ensures !Accepts(Lookup(fs, "client_id"), m.clientId) ==>
      s == Step(ErrorReply(ClientIdError, Some("Invalid client ID.")), m)
    ensures Accepts(Lookup(fs, "client_id"), m.clientId) && !Accepts(Lookup(fs, "client_secret"), m.clientSecret) ==>
      s == Step(ErrorReply(ClientSecretError, Some("Invalid client secret.")), m)
    ensures Authenticated(m, fs) && Lookup(fs, "grant_type").None? ==>
      s == Step(ErrorReply(MissingGrantError, None), m)
    ensures (Authenticated(m, fs) && Lookup(fs, "grant_type") == Some("authorization_code")
        && !Accepts(Lookup(fs, "redirect_uri"), m.redirectUrl)) ==>
      s == Step(ErrorReply(RedirectError, Some("Invalid redirect URL.")), m)
    ensures (Authenticated(m, fs) && Lookup(fs, "grant_type") == Some("authorization_code")
        && Accepts(Lookup(fs, "redirect_uri"), m.redirectUrl) && !Accepts(Lookup(fs, "code"), m.code)) ==>
      s == Step(ErrorReply(CodeError, Some("Invalid code.")), m)
    ensures Authenticated(m, fs) && Lookup(fs, "grant_type") == Some("refresh_token") && m.lastRefreshToken.None? ==>
      s == Step(ErrorReply(NoRefreshTokenError, Some("Invalid refresh token.")), m)
    ensures (Authenticated(m, fs) && Lookup(fs, "grant_type") == Some("refresh_token") && m.lastRefreshToken.Some?
        && !Accepts(Lookup(fs, "refresh_token"), m.lastRefreshToken)) ==>
      s == Step(ErrorReply(RefreshTokenError, Some("Invalid refresh token.")), m)
    ensures (Authenticated(m, fs) && Lookup(fs, "grant_type").Some?
        && Lookup(fs, "grant_type").value != "authorization_code" && Lookup(fs, "grant_type").value != "refresh_token") ==>
      s == Step(ErrorReply(UnknownGrantError, None), m)
  {
    var clientId := Lookup(fs, "client_id");
    var clientSecret := Lookup(fs, "client_secret");
    var grantType := Lookup(fs, "grant_type");
    if !Accepts(clientId, m.clientId) then
      Reject(m, ClientIdError, Some("Invalid client ID."))
    else if !Accepts(clientSecret, m.clientSecret) then
      Reject(m, ClientSecretError, Some("Invalid client secret."))
    else if grantType.None? then
      Reject(m, MissingGrantError, None)
    else if grantType.value == "authorization_code" then
      if !Accepts(Lookup(fs, "redirect_uri"), m.redirectUrl) then
        Reject(m, RedirectError, Some("Invalid redirect URL."))
      else if !Accepts(Lookup(fs, "code"), m.code) then
        Reject(m, CodeError, Some("Invalid code."))
      else
        Issue(m, issued)
    else if grantType.value == "refresh_token" then
      if m.lastRefreshToken.None? then
        Reject(m, NoRefreshTokenError, Some("Invalid refresh token."))
      else if !Accepts(Lookup(fs, "refresh_token"), m.lastRefreshToken) then
        Reject(m, RefreshTokenError, Some("Invalid refresh token."))
      else
        Issue(m, issued)
    else
      Reject(m, UnknownGrantError, None)
  }

  /** The token route, `POST /oauth2/token`: the content type is checked
      first; then the whole body is read, and a body part without a value
      makes the handler throw before it has changed anything; then the grant
      is processed. Only a successful grant changes the state, and only the
      remembered tokens. */
  function HandleToken(m: OAuthMock, req: MockRequest, issued: TokenPair): (s: Step<OAuthMock>)
    ensures SameConfiguration(s.next, m)
    ensures s.reply.Crash? <==> FormContent(req) && Parse(req.body).None?
    ensures s.reply.Reply? && s.reply.status == 200 <==>
      FormContent(req) && Parse(req.body).Some?
        && (ValidCodeExchange(m, Parse(req.body).value) || ValidRefresh(m, Parse(req.body).value))
    ensures s.reply.Reply? && s.reply.status == 200 ==>
      s.reply == TokenReply(m, issued)
        && s.next.lastAccessToken == Some(issued.accessToken) && s.next.lastRefreshToken == Some(issued.refreshToken)
    ensures !(s.reply.Reply? && s.reply.status == 200) ==> s.next == m
    ensures s.reply.Reply? && s.reply.status != 200 ==> s.reply.status == 400 && s.reply.payload.ErrorPayload?
  {
    if HeaderValue(req.headers, "Content-Type") != Some(FormContentType) then
      Reject(m, ContentTypeError, None)
    else
      match Parse(req.body)
      case None => Step(Crash, m)
      case Some(fs) => GrantToken(m, fs, issued)
  }

  /** A valid revocation (section 2.1 of RFC 7009): the token is the last
      access token issued. */
  predicate ValidRevocation(m: OAuthMock, fs: seq<Field>)
  {
    Authenticated(m, fs) && Accepts(Lookup(fs, "token"), m.lastAccessToken)
  }

  /** What the revocation route does with a body it has read into fields:
      the client id and the client secret are checked, then the token must
      be the last access token issued; on success both remembered tokens are
      forgotten and the reply is `{}`. */
  function Revoke(m: OAuthMock, fs: seq<Field>): (s: Step<OAuthMock>)
    ensures s.reply.Reply?
    ensures s.reply.status == 200 <==> ValidRevocation(m, fs)
    ensures s.reply.status == 200 ==>
      s.reply == Reply(200, Some("application/json"), EmptyObject)
        && s.next == m.(lastAccessToken := None, lastRefreshToken := None)
    ensures s.reply.status != 200 ==> s.next == m && s.reply.status == 400 && s.reply.payload.ErrorPayload?
    // Which check fails first decides the error.
    ensures !Accepts(Lookup(fs, "client_id"), m.clientId) ==>
      s == Step(ErrorReply(ClientIdError, Some("Invalid client ID.")), m)
    ensures Accepts(Lookup(fs, "client_id"), m.clientId) && !Accepts(Lookup(fs, "client_secret"), m.clientSecret) ==>
      s == Step(ErrorReply(ClientSecretError, Some("Invalid client secret.")), m)
    ensures Authenticated(m, fs) && !Accepts(Lookup(fs, "token"), m.lastAccessToken) ==>
      s == Step(ErrorReply(RevokeTokenError, None), m)
  {
    if !Accepts(Lookup(fs, "client_id"), m.clientId) then
      Reject(m, ClientIdError, Some("Invalid client ID."))
    else if !Accepts(Lookup(fs, "client_secret"), m.clientSecret) then
      Reject(m, ClientSecretError, Some("Invalid client secret."))
    else if !Accepts(Lookup(fs, "token"), m.lastAccessToken) then
      Reject(m, RevokeTokenError, None)
    else
      Step(Reply(200, Some(JsonContentType), EmptyObject), m.(lastAccessToken := None, lastRefreshToken := None))
  }

  /** The revocation route, `POST /oauth2/token/revoke`: the same content-type
      check and body reading as the token route, then the revocation. */
  function HandleRevoke(m: OAuthMock, req: MockRequest): (s: Step<OAuthMock>)
    ensures SameConfiguration(s.next, m)
    ensures s.reply.Crash? <==> FormContent(req) && Parse(req.body).None?
    ensures s.reply.Reply? && s.reply.status == 200 <==>
      FormContent(req) && Parse(req.body).Some? && ValidRevocation(m, Parse(req.body).value)
    ensures s.reply.Reply? && s.reply.status == 200 ==>
      s.reply.payload == EmptyObject && s.next.lastAccessToken.None? && s.next.lastRefreshToken.None?
    ensures !(s.reply.Reply? && s.reply.status == 200) ==> s.next == m
    ensures s.reply.Reply? && s.reply.status != 200 ==> s.reply.status == 400 && s.reply.payload.ErrorPayload?
  {
    if HeaderValue(req.headers, "Content-Type") != Some(FormContentType) then
      Reject(m, ContentTypeError, None)
    else
      match Parse(req.body)
      case None => Step(Crash, m)
      case Some(fs) => Revoke(m, fs)
  }

  /** The server's routes: the two POST routes above, nothing else. */
  function Serve(m: OAuthMock, req: MockRequest, issued: TokenPair): (s: Step<OAuthMock>)
    ensures req.verb == POST && req.path == "/oauth2/token" ==> s == HandleToken(m, req, issued)
    ensures req.verb == POST && req.path == "/oauth2/token/revoke" ==> s == HandleRevoke(m, req)
    ensures !(req.verb == POST && req.path in {"/oauth2/token", "/oauth2/token/revoke"}) ==> s == Step(NoRoute, m)
  {
    if req.verb == POST && req.path == "/oauth2/token" then HandleToken(m, req, issued)
    else if req.verb == POST && req.path == "/oauth2/token/revoke" then HandleRevoke(m, req)
    else Step(NoRoute, m)
  }

  // ---------------------------------------------------------------------
  // Which error is reported

  /** Without the form content type, the request is rejected before its body
      is read, whatever the body holds. */
  lemma ContentTypeCheckedFirst(m: OAuthMock, req: MockRequest, issued: TokenPair)
    requires !FormContent(req)
    ensures HandleToken(m, req, issued) == Step(ErrorReply(ContentTypeError, None), m)
    ensures HandleRevoke(m, req) == Step(ErrorReply(ContentTypeError, None), m)
  {
  }

  /** A wrong or missing client id is reported on both routes, before the
      secret, the grant or the token is looked at. */
  lemma ClientIdCheckedBeforeAnythingElse(m: OAuthMock, fs: seq<Field>, issued: TokenPair)
    requires !Accepts(Lookup(fs, "client_id"), m.clientId)
    ensures GrantToken(m, fs, issued) == Step(ErrorReply(ClientIdError, Some("Invalid client ID.")), m)
    ensures Revoke(m, fs) == Step(ErrorReply(ClientIdError, Some("Invalid client ID.")), m)
  {
  }

  /** With the right client id, a wrong or missing secret is reported on
      both routes, whatever grant or token follows. */
  lemma WrongSecretReported(m: OAuthMock, fs: seq<Field>, issued: TokenPair)
    requires Accepts(Lookup(fs, "client_id"), m.clientId)
    requires !Accepts(Lookup(fs, "client_secret"), m.clientSecret)
    ensures GrantToken(m, fs, issued) == Step(ErrorReply(ClientSecretError, Some("Invalid client secret.")), m)
    ensures Revoke(m, fs) == Step(ErrorReply(ClientSecretError, Some("Invalid client secret.")), m)
  {
  }

  /** An authenticated token request without a grant type is refused as such. */
  lemma MissingGrantReported(m: OAuthMock, fs: seq<Field>, issued: TokenPair)
    requires Authenticated(m, fs)
    requires Lookup(fs, "grant_type").None?
    ensures GrantToken(m, fs, issued) == Step(ErrorReply(MissingGrantError, None), m)
  {
  }

  /** In a code exchange the redirect URI is checked before the code: a wrong
      or missing one is reported whatever the code. */
  lemma WrongRedirectReported(m: OAuthMock, fs: seq<Field>, issued: TokenPair)
    requires Authenticated(m, fs)
    requires Lookup(fs, "grant_type") == Some("authorization_code")
    requires !Accepts(Lookup(fs, "redirect_uri"), m.redirectUrl)
    ensures GrantToken(m, fs, issued) == Step(ErrorReply(RedirectError, Some("Invalid redirect URL.")), m)
  {
  }

  /** A form request whose body parses is handled as the grant its fields
      ask for; nothing about the request but its fields matters then. */
  lemma ParsedTokenRequestIsGranted(m: OAuthMock, req: MockRequest, issued: TokenPair)
    ensures FormContent(req) && Parse(req.body).Some? ==>
      HandleToken(m, req, issued) == GrantToken(m, Parse(req.body).value, issued)
  {
  }

  /** The revocation route likewise acts on the fields of a body that parses. */
  lemma ParsedRevokeRequestIsRevoked(m: OAuthMock, req: MockRequest)
    ensures FormContent(req) && Parse(req.body).Some? ==>
      HandleRevoke(m, req) == Revoke(m, Parse(req.body).value)
  {
  }

  /** An authenticated request with a grant type other than the two known
      ones is reported as unsupported. */
  lemma UnknownGrantRejected(m: OAuthMock, fs: seq<Field>, issued: TokenPair)
    requires Authenticated(m, fs)
    requires Lookup(fs, "grant_type").Some?
    requires Lookup(fs, "grant_type").value != "authorization_code"
    requires Lookup(fs, "grant_type").value != "refresh_token"
    ensures GrantToken(m, fs, issued) == Step(ErrorReply(UnknownGrantError, None), m)
  {
  }

  /** An authenticated code exchange with the right redirect URI but another
      code is refused with the code error. */
  lemma WrongCodeReported(m: OAuthMock, fs: seq<Field>, issued: TokenPair)
    requires Authenticated(m, fs)
    requires Lookup(fs, "grant_type") == Some("authorization_code")
    requires Accepts(Lookup(fs, "redirect_uri"), m.redirectUrl)
    requires !Accepts(Lookup(fs, "code"), m.code)
    ensures GrantToken(m, fs, issued) == Step(ErrorReply(CodeError, Some("Invalid code.")), m)
  {
  }

  /** An authenticated refresh with a token other than the last one issued is
      refused with the refresh-token error. */
  lemma WrongRefreshTokenReported(m: OAuthMock, fs: seq<Field>, issued: TokenPair)
    requires Authenticated(m, fs)
    requires Lookup(fs, "grant_type") == Some("refresh_token")
    requires m.lastRefreshToken.Some?
    requires !Accepts(Lookup(fs, "refresh_token"), m.lastRefreshToken)
    ensures GrantToken(m, fs, issued) == Step(ErrorReply(RefreshTokenError, Some("Invalid refresh token.")), m)
  {
  }

  /** Before any grant has succeeded, or after a revocation, an
      authenticated refresh is refused with its own message, before the token
      it carries is looked at. */
  lemma NoRefreshTokenReported(m: OAuthMock, fs: seq<Field>, issued: TokenPair)
    requires Authenticated(m, fs)
    requires Lookup(fs, "grant_type") == Some("refresh_token")
    requires m.lastRefreshToken.None?
    ensures GrantToken(m, fs, issued) == Step(ErrorReply(NoRefreshTokenError, Some("Invalid refresh token.")), m)
  {
  }

  /** Before anything is issued, or after a revocation, nothing can be revoked. */
  lemma RevokeWithoutTokenRejected(m: OAuthMock, req: MockRequest)
    requires m.lastAccessToken.None?
    ensures !(HandleRevoke(m, req).reply.Reply? && HandleRevoke(m, req).reply.status == 200)
    ensures HandleRevoke(m, req).next == m
  {
  }
}
