/**
 `DiscordOAuth`: the client for Discord's token endpoint. Each call builds the
 form-encoded POST of one grant of the OAuth 2.0 framework: the
 authorization-code exchange (section 4.1.3 of RFC 6749), the refresh
 (section 6 of RFC 6749) and the revocation (section 2.1 of RFC 7009), with
 the client's credentials in the body.
 */
module DiscordOAuthClient {
  import opened JavaBasics
  import opened JavaStrings
  import opened FormEncoding
  import opened Http
  import opened Application

  const TokenEndpoint: string := "/oauth2/token"

  const RevokeEndpoint: string := "/oauth2/token/revoke"

  datatype DiscordOAuth = DiscordOAuth(application: DiscordApplication)

  /** `new DiscordOAuth(application)`: rejects a null application. */
  function NewDiscordOAuth(application: Option<DiscordApplication>): (r: Result<DiscordOAuth>)
    ensures application.None? ==> r == Err(NullPointer("application"))
    ensures application.Some? ==> r == Ok(DiscordOAuth(application.value))
  {
    match application
    case None => Err(NullPointer("application"))
    case Some(a) => Ok(DiscordOAuth(a))
  }

  /** `getDefaultUrl()`: requests go to the application's API URL, not to a
      URL of this client's own. */
  function DefaultUrl(oauth: DiscordOAuth): (url: string)
    ensures url == oauth.application.apiUrl
  {
    oauth.application.apiUrl
  }

  /** `getDefaultRequestHeaders()`: the same single User-Agent header as the
      user client. */
  function DefaultRequestHeaders(oauth: DiscordOAuth): (hs: seq<Header>)
    ensures |hs| == 1
    ensures HeaderValue(hs, "User-Agent") == Some("Java-Discord-OAuth2 (dev.mayuna, 1.0)")
    ensures forall name :: !EqualsIgnoreCase("User-Agent", name) ==> HeaderValue(hs, name).None?
  {
    UserAgentIsTheOnlyHeader();
    [UserAgentHeader]
  }

  /** The fields of the authorization-code exchange, in the order they are written. */
  function FetchFields(app: DiscordApplication, code: string): seq<Field>
  {
    [("client_id", app.clientId), ("client_secret", app.clientSecret), ("grant_type", "authorization_code"),
     ("code", code), ("redirect_uri", app.redirectUrl)]
  }

  /** The fields of the refresh, in the order they are written. */
  function RefreshFields(app: DiscordApplication, refreshToken: string): seq<Field>
  {
    [("client_id", app.clientId), ("client_secret", app.clientSecret), ("grant_type", "refresh_token"),
     ("refresh_token", refreshToken)]
  }

  /** The fields of the revocation, in the order they are written. */
  function RevokeFields(app: DiscordApplication, accessToken: string): seq<Field>
  {
    [("token", accessToken), ("client_id", app.clientId), ("client_secret", app.clientSecret)]
  }

  /** A form POST to this client's URL with its default headers and the
      form content type. */
  predicate IsFormPost(oauth: DiscordOAuth, req: ApiRequest, endpoint: string)
  {
    && req.baseUrl == DefaultUrl(oauth)
    && req.defaultHeaders == [UserAgentHeader]
    && req.verb == POST
    && req.endpoint == endpoint
    && req.headers == [ContentTypeHeader(FormContentType)]
  }

  function FormPost(oauth: DiscordOAuth, endpoint: string, body: string, expects: ResponseKind): (req: ApiRequest)
    ensures IsFormPost(oauth, req, endpoint)
    ensures req.body == Some(body) && req.expects == expects
  {
    ApiRequest(DefaultUrl(oauth), DefaultRequestHeaders(oauth), POST, endpoint,
               [ContentTypeHeader(FormContentType)], Some(body), expects)
  }

  /** `fetchAccessToken(code)`: a null code is rejected; otherwise a form POST
      to `/oauth2/token` whose body is the client id, the client secret,
      `grant_type=authorization_code`, the code and the redirect URL, read as
      an access token. */
  function FetchAccessToken(oauth: DiscordOAuth, code: Option<string>): (r: Result<ApiRequest>)
    ensures code.None? ==> r == Err(NullPointer("code"))
    ensures code.Some? ==> r.Ok?
    ensures r.Ok? ==>
      && IsFormPost(oauth, r.value, "/oauth2/token")
      && r.value.body == Some(Encode(FetchFields(oauth.application, code.value)))
      && r.value.expects == AccessTokenKind
  {
    match code
    case None => Err(NullPointer("code"))
    case Some(c) =>
      var app := oauth.application;
      var body := "";
      var body := body + "client_id=" + app.clientId;
      var body := body + "&client_secret=" + app.clientSecret;
      var body := body + "&grant_type=authorization_code";
      var body := body + "&code=" + c;
      var body := body + "&redirect_uri=" + app.redirectUrl;
      FetchBodyIsEncoded(app, c, body);
      Ok(FormPost(oauth, TokenEndpoint, body, AccessTokenKind))
  }

  lemma FetchBodyIsEncoded(app: DiscordApplication, code: string, body: string)
    requires body == "" + "client_id=" + app.clientId + "&client_secret=" + app.clientSecret
                    + "&grant_type=authorization_code" + "&code=" + code + "&redirect_uri=" + app.redirectUrl
    ensures body == Encode(FetchFields(app, code))
  {
    var f3 := GrantFields(app, "authorization_code");
    var f4 := f3 + [("code", code)];
    var b3 := "" + "client_id=" + app.clientId + "&client_secret=" + app.clientSecret
              + "&grant_type=authorization_code";
    var b4 := b3 + "&code=" + code;
    assert b3 == Encode(f3) by { GrantIsEncoded(app, "authorization_code", "&grant_type=authorization_code", b3); }
    assert b4 == Encode(f4) by { EncodeAppend(f3, "code", code, "&code="); }
    EncodeAppend(f4, "redirect_uri", app.redirectUrl, "&redirect_uri=");
    assert f4 + [("redirect_uri", app.redirectUrl)] == FetchFields(app, code);
  }

  /** The client id, the client secret and the grant type: the fields both
      token requests start with. */
  function GrantFields(app: DiscordApplication, grant: string): seq<Field>
  {
    [("client_id", app.clientId), ("client_secret", app.clientSecret), ("grant_type", grant)]
  }

  /** The first two `+=` steps of every token request write the credentials. */
  lemma CredentialsAreEncoded(app: DiscordApplication, body: string)
    requires body == "" + "client_id=" + app.clientId + "&client_secret=" + app.clientSecret
    ensures body == Encode([("client_id", app.clientId), ("client_secret", app.clientSecret)])
  {
    var f1 := [("client_id", app.clientId)];
    var b1 := "" + "client_id=" + app.clientId;
    assert b1 == Encode(f1) by { EncodeFirst("client_id", app.clientId, "client_id="); }
    EncodeAppend(f1, "client_secret", app.clientSecret, "&client_secret=");
  }

  /** The third step writes the grant type as a constant `&grant_type=...`. */
  lemma GrantIsEncoded(app: DiscordApplication, grant: string, text: string, body: string)
    requires text == "&grant_type=" + grant
    requires body == "" + "client_id=" + app.clientId + "&client_secret=" + app.clientSecret + text
    ensures body == Encode(GrantFields(app, grant))
  {
    var f2 := [("client_id", app.clientId), ("client_secret", app.clientSecret)];
    var b2 := "" + "client_id=" + app.clientId + "&client_secret=" + app.clientSecret;
    assert b2 == Encode(f2) by { CredentialsAreEncoded(app, b2); }
    EncodeAppendConstant(f2, "grant_type", grant, text);
    assert f2 + [("grant_type", grant)] == GrantFields(app, grant);
  }

  /** `refreshAccessToken(refreshToken)`: a null token is rejected; otherwise
      a form POST to `/oauth2/token` whose body is the client id, the client
      secret, `grant_type=refresh_token` and the refresh token, read as an
      access token. */
  function RefreshAccessToken(oauth: DiscordOAuth, refreshToken: Option<string>): (r: Result<ApiRequest>)
    ensures refreshToken.None? ==> r == Err(NullPointer("refreshToken"))
    ensures refreshToken.Some? ==> r.Ok?
    ensures r.Ok? ==>
      && IsFormPost(oauth, r.value, "/oauth2/token")
      && r.value.body == Some(Encode(RefreshFields(oauth.application, refreshToken.value)))
      && r.value.expects == AccessTokenKind
  {
    match refreshToken
    case None => Err(NullPointer("refreshToken"))
    case Some(t) =>
      var app := oauth.application;
      var body := "";
      var body := body + "client_id=" + app.clientId;
      var body := body + "&client_secret=" + app.clientSecret;
      var body := body + "&grant_type=refresh_token";
      var body := body + "&refresh_token=" + t;
      RefreshBodyIsEncoded(app, t, body);
      Ok(FormPost(oauth, TokenEndpoint, body, AccessTokenKind))
  }

  lemma RefreshBodyIsEncoded(app: DiscordApplication, refreshToken: string, body: string)
    requires body == "" + "client_id=" + app.clientId + "&client_secret=" + app.clientSecret
                    + "&grant_type=refresh_token" + "&refresh_token=" + refreshToken
    ensures body == Encode(RefreshFields(app, refreshToken))
  {
    var f3 := GrantFields(app, "refresh_token");
    var b3 := "" + "client_id=" + app.clientId + "&client_secret=" + app.clientSecret
              + "&grant_type=refresh_token";
    assert b3 == Encode(f3) by { GrantIsEncoded(app, "refresh_token", "&grant_type=refresh_token", b3); }
    EncodeAppend(f3, "refresh_token", refreshToken, "&refresh_token=");
    assert f3 + [("refresh_token", refreshToken)] == RefreshFields(app, refreshToken);
  }

  /** `revokeTokens(accessToken)`: a null token is rejected; otherwise a form
      POST to `/oauth2/token/revoke` whose body is the token, the client id and
      the client secret, read as a bare response. */
  function RevokeTokens(oauth: DiscordOAuth, accessToken: Option<string>): (r: Result<ApiRequest>)
    ensures accessToken.None? ==> r == Err(NullPointer("accessToken"))
    ensures accessToken.Some? ==> r.Ok?
    ensures r.Ok? ==>
      && IsFormPost(oauth, r.value, "/oauth2/token/revoke")
      && r.value.body == Some(Encode(RevokeFields(oauth.application, accessToken.value)))
      && r.value.expects == PlainResponseKind
  {
    match accessToken
    case None => Err(NullPointer("accessToken"))
    case Some(t) =>
      var app := oauth.application;
      var body := "";
      var body := body + "token=" + t;
      var body := body + "&client_id=" + app.clientId;
      var body := body + "&client_secret=" + app.clientSecret;
      RevokeBodyIsEncoded(app, t, body);
      Ok(FormPost(oauth, RevokeEndpoint, body, PlainResponseKind))
  }

  lemma RevokeBodyIsEncoded(app: DiscordApplication, accessToken: string, body: string)
    requires body == "" + "token=" + accessToken + "&client_id=" + app.clientId + "&client_secret=" + app.clientSecret
    ensures body == Encode(RevokeFields(app, accessToken))
  {
    var f1 := [("token", accessToken)];
    var f2 := f1 + [("client_id", app.clientId)];
    var f3 := f2 + [("client_secret", app.clientSecret)];
    var b1 := "" + "token=" + accessToken;
    var b2 := b1 + "&client_id=" + app.clientId;
    assert b1 == Encode(f1) by { EncodeFirst("token", accessToken, "token="); }
    assert b2 == Encode(f2) by { EncodeAppend(f1, "client_id", app.clientId, "&client_id="); }
    assert body == Encode(f3) by { EncodeAppend(f2, "client_secret", app.clientSecret, "&client_secret="); }
    assert f3 == RevokeFields(app, accessToken);
  }

  // ---------------------------------------------------------------------
  // What a form reader recovers from each body

  /** Credentials and arguments that survive the unescaped encoding: not
      empty, and free of `&` and `=`. */
  predicate SafeValue(v: string)
  {
    v != "" && '&' !in v && '=' !in v
  }

  predicate SafeApplication(app: DiscordApplication)
  {
    SafeValue(app.clientId) && SafeValue(app.clientSecret) && SafeValue(app.redirectUrl)
  }

  /** The field names of each body are distinct, so every field can be
      looked up by its name. */
  lemma FetchFieldsLookup(app: DiscordApplication, code: string)
    ensures Lookup(FetchFields(app, code), "client_id") == Some(app.clientId)
    ensures Lookup(FetchFields(app, code), "client_secret") == Some(app.clientSecret)
    ensures Lookup(FetchFields(app, code), "grant_type") == Some("authorization_code")
    ensures Lookup(FetchFields(app, code), "code") == Some(code)
    ensures Lookup(FetchFields(app, code), "redirect_uri") == Some(app.redirectUrl)
  {
    var fs := FetchFields(app, code);
    assert forall a, b :: 0 <= a < b < |fs| ==> fs[a].0 != fs[b].0;
    LookupDistinct(fs, 0);
    LookupDistinct(fs, 1);
    LookupDistinct(fs, 2);
    LookupDistinct(fs, 3);
    LookupDistinct(fs, 4);
  }

  lemma RefreshFieldsLookup(app: DiscordApplication, refreshToken: string)
    ensures Lookup(RefreshFields(app, refreshToken), "client_id") == Some(app.clientId)
    ensures Lookup(RefreshFields(app, refreshToken), "client_secret") == Some(app.clientSecret)
    ensures Lookup(RefreshFields(app, refreshToken), "grant_type") == Some("refresh_token")
    ensures Lookup(RefreshFields(app, refreshToken), "refresh_token") == Some(refreshToken)
  {
    var fs := RefreshFields(app, refreshToken);
    assert forall a, b :: 0 <= a < b < |fs| ==> fs[a].0 != fs[b].0;
    LookupDistinct(fs, 0);
    LookupDistinct(fs, 1);
    LookupDistinct(fs, 2);
    LookupDistinct(fs, 3);
  }

  lemma RevokeFieldsLookup(app: DiscordApplication, accessToken: string)
    ensures Lookup(RevokeFields(app, accessToken), "token") == Some(accessToken)
    ensures Lookup(RevokeFields(app, accessToken), "client_id") == Some(app.clientId)
    ensures Lookup(RevokeFields(app, accessToken), "client_secret") == Some(app.clientSecret)
  {
    var fs := RevokeFields(app, accessToken);
    assert forall a, b :: 0 <= a < b < |fs| ==> fs[a].0 != fs[b].0;
    LookupDistinct(fs, 0);
    LookupDistinct(fs, 1);
    LookupDistinct(fs, 2);
  }

  /** Split on `&` and `=`, the exchange body gives back its five fields. */
  lemma FetchBodyReadsBack(app: DiscordApplication, code: string)
    requires SafeApplication(app) && SafeValue(code)
    ensures Parse(Encode(FetchFields(app, code))) == Some(FetchFields(app, code))
  {
    FetchFieldsAreSafe(app, code);
    ParseOfEncode(FetchFields(app, code));
  }

  lemma FetchFieldsAreSafe(app: DiscordApplication, code: string)
    requires SafeApplication(app) && SafeValue(code)
    ensures forall i :: 0 <= i < |FetchFields(app, code)| ==> SafeField(FetchFields(app, code)[i])
  {
    var fs := FetchFields(app, code);
    var gs := GrantFields(app, "authorization_code");
    assert SafeValue("authorization_code");
    GrantFieldsAreSafe(app, "authorization_code");
    assert fs[0] == gs[0] && fs[1] == gs[1] && fs[2] == gs[2];
    assert SafeField(fs[3]);
    assert SafeField(fs[4]);
  }

  /** The credentials and a safe grant type are safe fields. */
  lemma GrantFieldsAreSafe(app: DiscordApplication, grant: string)
    requires SafeApplication(app) && SafeValue(grant)
    ensures SafeField(GrantFields(app, grant)[0])
    ensures SafeField(GrantFields(app, grant)[1])
    ensures SafeField(GrantFields(app, grant)[2])
  {
  }

  /** The refresh body gives back its four fields. */
  lemma RefreshBodyReadsBack(app: DiscordApplication, refreshToken: string)
    requires SafeApplication(app) && SafeValue(refreshToken)
    ensures Parse(Encode(RefreshFields(app, refreshToken))) == Some(RefreshFields(app, refreshToken))
  {
    var fs := RefreshFields(app, refreshToken);
    assert SafeField(fs[0]) && SafeField(fs[1]) && SafeField(fs[3]);
    assert SafeField(fs[2]) by { assert fs[2].1 == "refresh_token"; }
    ParseOfEncode(fs);
  }

  /** The revocation body gives back its three fields. */
  lemma RevokeBodyReadsBack(app: DiscordApplication, accessToken: string)
    requires SafeApplication(app) && SafeValue(accessToken)
    ensures Parse(Encode(RevokeFields(app, accessToken))) == Some(RevokeFields(app, accessToken))
  {
    var fs := RevokeFields(app, accessToken);
    assert SafeField(fs[0]) && SafeField(fs[1]) && SafeField(fs[2]);
    ParseOfEncode(fs);
  }

  /** An empty code is sent as `code=` with nothing after it, which the form
      reader cannot parse: the whole exchange body is rejected. */
  lemma EmptyCodeBodyDoesNotParse(app: DiscordApplication)
    requires SafeApplication(app)
    ensures Parse(Encode(FetchFields(app, ""))) == None
  {
    var fs := FetchFields(app, "");
    assert forall j :: 0 <= j < |fs| ==> '&' !in fs[j].0 && '&' !in fs[j].1;
    ParseOfEncodeWithEmptyValue(fs, 3);
  }
}
