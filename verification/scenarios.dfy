/**
 The clients against the test servers: each built request, sent to the
 matching server, gets the answer the test suite expects. The JSON binding
 of a reply into an entity is written out here for the fields the
 scenarios read.
 */
module Scenarios {
  import opened JavaBasics
  import opened JavaStrings
  import opened JavaLong
  import opened Http
  import opened FormEncoding
  import opened Entities
  import opened Application
  import opened DiscordOAuthClient
  import opened DiscordApiClient
  import opened MockServer
  import opened OAuthServer
  import ApiServer

  /** An access-token reply read into a `DiscordAccessToken` created at
      `fetchedAt`: a token payload fills the token fields, an error payload
      only the error fields; absent fields stay null or zero. */
  function BindAccessToken(p: Payload, fetchedAt: Long): DiscordAccessToken
  {
    match p
    case TokenPayload(a, ty, e, r, sc) => DiscordAccessToken(fetchedAt, Some(a), Some(ty), e, Some(r), sc, None, None)
    case ErrorPayload(err, desc) => DiscordAccessToken(fetchedAt, None, None, 0, None, None, Some(err), desc)
    case _ => DiscordAccessToken(fetchedAt, None, None, 0, None, None, None, None)
  }

  /** A user reply read into a `DiscordUser`: the user itself, or a user with
      only the error fields set. */
  function BindUser(p: Payload): DiscordUser
  {
    match p
    case UserPayload(u) => u
    case ErrorPayload(err, desc) =>
      DiscordUser(None, None, None, None, None, None, None, None, None, None, None, None, None, None, None, None,
                  Some(err), desc)
    case _ =>
      DiscordUser(None, None, None, None, None, None, None, None, None, None, None, None, None, None, None, None,
                  None, None)
  }

  /** The token server configured with the application's credentials, the
      given code and scope, having issued `last`. */
  function ServerFor(app: DiscordApplication, code: string, scope: Option<string>, last: Option<TokenPair>): OAuthMock
  {
    OAuthMock(Some(app.clientId), Some(app.clientSecret), Some(code), Some(app.redirectUrl), scope,
              if last.Some? then Some(last.value.accessToken) else None,
              if last.Some? then Some(last.value.refreshToken) else None)
  }

  /** Every form request of the OAuth client reaches its route with the form
      content type, which the server finds behind the User-Agent header. */
  lemma FormRequestArrives(oauth: DiscordOAuth, req: ApiRequest, endpoint: string)
    requires IsFormPost(oauth, req, endpoint)
    ensures Transmit(req).verb == POST && Transmit(req).path == endpoint
    ensures FormContent(Transmit(req))
  {
    var hs := Transmit(req).headers;
    assert hs == [UserAgentHeader] + [ContentTypeHeader(FormContentType)];
    assert !EqualsIgnoreCase(UserAgentHeader.name, "Content-Type");
    HeaderValueSkips([UserAgentHeader], [ContentTypeHeader(FormContentType)], "Content-Type");
    assert EqualsIgnoreCase("Content-Type", "Content-Type");
  }

  /** A token request whose body the server reads back as `fs` is handled
      as the grant `fs` asks for. */
  lemma TokenRouteReads(m: OAuthMock, oauth: DiscordOAuth, req: ApiRequest, fs: seq<Field>, issued: TokenPair)
    requires IsFormPost(oauth, req, TokenEndpoint)
    requires req.body == Some(Encode(fs)) && Parse(Encode(fs)) == Some(fs)
    ensures Serve(m, Transmit(req), issued) == GrantToken(m, fs, issued)
  {
    FormRequestArrives(oauth, req, TokenEndpoint);
  }

  /** A revocation whose body the server reads back as `fs` is handled as
      the revocation `fs` asks for. */
  lemma RevokeRouteReads(m: OAuthMock, oauth: DiscordOAuth, req: ApiRequest, fs: seq<Field>, issued: TokenPair)
    requires IsFormPost(oauth, req, RevokeEndpoint)
    requires req.body == Some(Encode(fs)) && Parse(Encode(fs)) == Some(fs)
    ensures Serve(m, Transmit(req), issued) == Revoke(m, fs)
  {
    FormRequestArrives(oauth, req, RevokeEndpoint);
  }

  /** The exchange of the configured code grants the pair the server
      generates and remembers it. */
  lemma FetchGrantsTokens(app: DiscordApplication, code: string, scope: Option<string>, last: Option<TokenPair>,
                          issued: TokenPair)
    requires SafeApplication(app) && SafeValue(code)
    ensures
      var m := ServerFor(app, code, scope, last);
      var s := Serve(m, Transmit(FetchAccessToken(DiscordOAuth(app), Some(code)).value), issued);
      s.reply == TokenReply(m, issued) && s.next == ServerFor(app, code, scope, Some(issued))
  {
    var m := ServerFor(app, code, scope, last);
    var oauth := DiscordOAuth(app);
    var req := FetchAccessToken(oauth, Some(code)).value;
    var fs := FetchFields(app, code);
    FetchBodyReadsBack(app, code);
    TokenRouteReads(m, oauth, req, fs, issued);
    FetchFieldsLookup(app, code);
    assert ValidCodeExchange(m, fs);
  }

  /** The token read from a grant lists the scopes the server was configured
      with, joined by spaces. */
  lemma GrantedScopes(m: OAuthMock, issued: TokenPair, scopes: seq<string>, now: Long)
    requires |scopes| >= 1 && scopes[|scopes| - 1] != "" && forall i :: 0 <= i < |scopes| ==> ' ' !in scopes[i]
    requires m.scope == Some(Join(scopes, " "))
    ensures GetScopes(BindAccessToken(TokenReply(m, issued).payload, now)) == scopes
  {
    ScopesOfJoin(BindAccessToken(TokenReply(m, issued).payload, now), scopes);
  }

  /** A code other than the configured one is refused with the code error and
      changes nothing. */
  lemma WrongCodeRejected(app: DiscordApplication, code: string, sent: string, scope: Option<string>,
                          last: Option<TokenPair>, issued: TokenPair)
    requires SafeApplication(app) && SafeValue(sent)
    requires sent != code
    ensures
      var m := ServerFor(app, code, scope, last);
      var s := Serve(m, Transmit(FetchAccessToken(DiscordOAuth(app), Some(sent)).value), issued);
      s == Step(ErrorReply(CodeError, Some("Invalid code.")), m)
  {
    var m := ServerFor(app, code, scope, last);
    var oauth := DiscordOAuth(app);
    var req := FetchAccessToken(oauth, Some(sent)).value;
    var fs := FetchFields(app, sent);
    FetchBodyReadsBack(app, sent);
    TokenRouteReads(m, oauth, req, fs, issued);
    FetchFieldsLookup(app, sent);
    WrongCodeReported(m, fs, issued);
  }

  /** A token read from an error reply has its error set and every token
      field null or zero. This describes the binding assumed above
      (`BindAccessToken`), which stands in for Gson; the library itself
      enforces nothing here. */
  lemma RejectedTokenHasOnlyError(error: string, errorDescription: Option<string>, now: Long)
    ensures
      var t := BindAccessToken(ErrorReply(error, errorDescription).payload, now);
      && t.error == Some(error) && t.errorDescription == errorDescription
      && t.accessToken.None? && t.tokenType.None? && t.expiresInSeconds == 0
      && t.refreshToken.None? && t.scope.None?
  {
  }

  /** Refreshing with the last refresh token issued grants the next pair. */
  lemma RefreshGrantsTokens(app: DiscordApplication, code: string, scope: Option<string>, last: TokenPair,
                            issued: TokenPair)
    requires SafeApplication(app) && SafeValue(last.refreshToken)
    ensures
      var m := ServerFor(app, code, scope, Some(last));
      var s := Serve(m, Transmit(RefreshAccessToken(DiscordOAuth(app), Some(last.refreshToken)).value), issued);
      s.reply == TokenReply(m, issued) && s.next == ServerFor(app, code, scope, Some(issued))
  {
    var m := ServerFor(app, code, scope, Some(last));
    var oauth := DiscordOAuth(app);
    var req := RefreshAccessToken(oauth, Some(last.refreshToken)).value;
    FormRequestArrives(oauth, req, TokenEndpoint);
    RefreshBodyReadsBack(app, last.refreshToken);
    RefreshFieldsLookup(app, last.refreshToken);
    assert ValidRefresh(m, RefreshFields(app, last.refreshToken));
  }

  /** A refresh token is good for one refresh: once a newer pair has been
      issued, the stale refresh token is refused. */
  lemma StaleRefreshTokenRejected(app: DiscordApplication, code: string, scope: Option<string>, stale: TokenPair,
                                  current: TokenPair, issued: TokenPair)
    requires SafeApplication(app) && SafeValue(stale.refreshToken)
    requires current.refreshToken != stale.refreshToken
    ensures
      var m := ServerFor(app, code, scope, Some(current));
      var s := Serve(m, Transmit(RefreshAccessToken(DiscordOAuth(app), Some(stale.refreshToken)).value), issued);
      s == Step(ErrorReply(RefreshTokenError, Some("Invalid refresh token.")), m)
  {
    var m := ServerFor(app, code, scope, Some(current));
    var oauth := DiscordOAuth(app);
    var req := RefreshAccessToken(oauth, Some(stale.refreshToken)).value;
    var fs := RefreshFields(app, stale.refreshToken);
    RefreshBodyReadsBack(app, stale.refreshToken);
    TokenRouteReads(m, oauth, req, fs, issued);
    RefreshFieldsLookup(app, stale.refreshToken);
    WrongRefreshTokenReported(m, fs, issued);
  }

  /** Revoking the last access token succeeds and forgets both tokens. */
  lemma RevokeForgetsTokens(app: DiscordApplication, code: string, scope: Option<string>, last: TokenPair,
                            issued: TokenPair)
    requires SafeApplication(app) && SafeValue(last.accessToken)
    ensures
      var m := ServerFor(app, code, scope, Some(last));
      var s := Serve(m, Transmit(RevokeTokens(DiscordOAuth(app), Some(last.accessToken)).value), issued);
      s == Step(Reply(200, Some("application/json"), EmptyObject), ServerFor(app, code, scope, None))
  {
    var m := ServerFor(app, code, scope, Some(last));
    var oauth := DiscordOAuth(app);
    var req := RevokeTokens(oauth, Some(last.accessToken)).value;
    FormRequestArrives(oauth, req, RevokeEndpoint);
    RevokeBodyReadsBack(app, last.accessToken);
    RevokeFieldsLookup(app, last.accessToken);
  }

  /** After a revocation the server holds no tokens: a refresh, with any
      token, is refused for want of a refresh token. */
  lemma NoRefreshAfterRevoke(app: DiscordApplication, code: string, scope: Option<string>, token: string,
                             issued: TokenPair)
    requires SafeApplication(app) && SafeValue(token)
    ensures
      var m := ServerFor(app, code, scope, None);
      var s := Serve(m, Transmit(RefreshAccessToken(DiscordOAuth(app), Some(token)).value), issued);
      s == Step(ErrorReply(NoRefreshTokenError, Some("Invalid refresh token.")), m)
  {
    var m := ServerFor(app, code, scope, None);
    var oauth := DiscordOAuth(app);
    var req := RefreshAccessToken(oauth, Some(token)).value;
    var fs := RefreshFields(app, token);
    RefreshBodyReadsBack(app, token);
    TokenRouteReads(m, oauth, req, fs, issued);
    RefreshFieldsLookup(app, token);
    NoRefreshTokenReported(m, fs, issued);
  }

  /** After a revocation a second revocation, with any token, is refused. */
  lemma NoSecondRevoke(app: DiscordApplication, code: string, scope: Option<string>, token: string,
                       issued: TokenPair)
    requires SafeApplication(app) && SafeValue(token)
    ensures
      var m := ServerFor(app, code, scope, None);
      var s := Serve(m, Transmit(RevokeTokens(DiscordOAuth(app), Some(token)).value), issued);
      s == Step(ErrorReply(RevokeTokenError, None), m)
  {
    var m := ServerFor(app, code, scope, None);
    var oauth := DiscordOAuth(app);
    var req := RevokeTokens(oauth, Some(token)).value;
    var fs := RevokeFields(app, token);
    RevokeBodyReadsBack(app, token);
    RevokeRouteReads(m, oauth, req, fs, issued);
    RevokeFieldsLookup(app, token);
  }

  /** `fetchUser` against the user server: the configured user comes back
      exactly when the token is the configured one; otherwise an error with a
      description. */
  lemma FetchUserAgainstServer(api: DiscordApi, server: ApiServer.ApiMock, token: string)
    ensures
      var r := ApiServer.Serve(server, Transmit(FetchUser(api, Some(token)).value));
      && r.Reply?
      && (r.status == 200 <==> server.userAccessToken == Some(token))
      && (r.status == 200 ==> BindUser(r.payload) == server.user)
      && (r.status != 200 ==> BindUser(r.payload).error.Some? && BindUser(r.payload).errorDescription.Some?)
  {
    var req := Transmit(FetchUser(api, Some(token)).value);
    var auth := Header("Authorization", "Bearer " + token);
    assert req.headers == [UserAgentHeader] + [auth];
    assert !EqualsIgnoreCase(UserAgentHeader.name, "Authorization");
    HeaderValueSkips([UserAgentHeader], [auth], "Authorization");
    assert EqualsIgnoreCase("Authorization", "Authorization");
    assert ("Bearer " + token)[..7] == "Bearer ";
    assert ("Bearer " + token)[7..] == token;
    assert ApiServer.BearerToken(req) == Some(token);
  }
}
