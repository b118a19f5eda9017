/**
 The application configuration (`DiscordApplication`), its `Builder`, and the
 authorization-URL factory it carries (`DiscordOAuthAuthorizationUrlFactory`),
 which writes the authorization request of the OAuth 2.0 authorization-code
 grant (section 4.1.1 of RFC 6749).
 */
module Application {
  import opened JavaBasics
  import opened JavaStrings
  import opened FormEncoding
  import DiscordApiClient

  const DefaultAuthorizeUrl: string := "https://discord.com/oauth2/authorize"

  /** The factory's only state is its base URL. Its one-argument constructor
      does not check for null, so the base URL may be null. */
  datatype UrlFactory = UrlFactory(baseAuthorizeUrl: Option<string>)

  /** `new DiscordOAuthAuthorizationUrlFactory()`. */
  function DefaultUrlFactory(): (f: UrlFactory)
    ensures f.baseAuthorizeUrl == Some("https://discord.com/oauth2/authorize")
  {
    UrlFactory(Some(DefaultAuthorizeUrl))
  }

  datatype DiscordApplication = DiscordApplication(
    apiUrl: string,
    clientId: string,
    clientSecret: string,
    redirectUrl: string,
    scopes: Option<seq<string>>,
    authorizationUrlFactory: UrlFactory)

  /** The full constructor: Lombok checks the five `@NonNull` parameters in
      order and throws for the first null one; scopes may be null, and empty
      strings are accepted. */
  function NewApplication(apiUrl: Option<string>, clientId: Option<string>, clientSecret: Option<string>,
                          redirectUrl: Option<string>, factory: Option<UrlFactory>,
                          scopes: Option<seq<string>>): (r: Result<DiscordApplication>)
    ensures r.Ok? <==>
      apiUrl.Some? && clientId.Some? && clientSecret.Some? && redirectUrl.Some? && factory.Some?
    ensures r.Ok? ==>
      && r.value.apiUrl == apiUrl.value
      && r.value.clientId == clientId.value
      && r.value.clientSecret == clientSecret.value
      && r.value.redirectUrl == redirectUrl.value
      && r.value.authorizationUrlFactory == factory.value
      && r.value.scopes == scopes
    ensures apiUrl.None? ==> r == Err(NullPointer("apiUrl"))
    ensures apiUrl.Some? && clientId.None? ==> r == Err(NullPointer("clientId"))
    ensures apiUrl.Some? && clientId.Some? && clientSecret.None? ==> r == Err(NullPointer("clientSecret"))
    ensures apiUrl.Some? && clientId.Some? && clientSecret.Some? && redirectUrl.None? ==>
      r == Err(NullPointer("redirectUrl"))
    ensures apiUrl.Some? && clientId.Some? && clientSecret.Some? && redirectUrl.Some? && factory.None? ==>
      r == Err(NullPointer("authorizationUrlFactory"))
    ensures r.Err? ==> r.failure.NullPointer?
  {
    if apiUrl.None? then Err(NullPointer("apiUrl"))
    else if clientId.None? then Err(NullPointer("clientId"))
    else if clientSecret.None? then Err(NullPointer("clientSecret"))
    else if redirectUrl.None? then Err(NullPointer("redirectUrl"))
    else if factory.None? then Err(NullPointer("authorizationUrlFactory"))
    else Ok(DiscordApplication(apiUrl.value, clientId.value, clientSecret.value, redirectUrl.value,
                               scopes, factory.value))
  }

  // ---------------------------------------------------------------------
  // Authorization URL

  /** Where each query parameter stands in the URL. */
  function ParamRank(key: string): nat
  {
    if key == "client_id" then 0
    else if key == "redirect_uri" then 1
    else if key == "response_type" then 2
    else if key == "scope" then 3
    else if key == "state" then 4
    else 5
  }

  /** A parameter that is written only when its value is not null. */
  function OptionalParam(key: string, value: Option<string>): (ps: seq<Field>)
    ensures |ps| == 1 <==> value.Some?
    ensures |ps| <= 1
    ensures forall i :: 0 <= i < |ps| ==> ps[i] == (key, value.value)
  {
    if value.Some? then [(key, value.value)] else []
  }

  /** The scope parameter's value: the scopes joined with the already-escaped
      space `%20`, in their configured order. */
  function ScopeValue(app: DiscordApplication): Option<string>
  {
    if app.scopes.Some? then Some(Join(app.scopes.value, "%20")) else None
  }

  function RequiredParams(app: DiscordApplication): seq<Field>
  {
    [("client_id", app.clientId), ("redirect_uri", app.redirectUrl), ("response_type", "code")]
  }

  /** The parameters of the authorization request as an ordered list: the
      three required ones, then scope, state and prompt when each is present. */
  function AuthorizationParams(app: DiscordApplication, state: Option<string>, prompt: Option<string>): (ps: seq<Field>)
    ensures 3 <= |ps| <= 6
    ensures ps[..3] == [("client_id", app.clientId), ("redirect_uri", app.redirectUrl), ("response_type", "code")]
    ensures forall i, j :: 0 <= i < j < |ps| ==> ParamRank(ps[i].0) < ParamRank(ps[j].0)
  {
    RequiredParams(app)
      + OptionalParam("scope", ScopeValue(app))
      + OptionalParam("state", state)
      + OptionalParam("prompt", prompt)
  }

  lemma LookupAfterOptional(ps: seq<Field>, key: string, other: string, value: Option<string>)
    requires key != other
    ensures Lookup(ps + OptionalParam(other, value), key) == Lookup(ps, key)
  {
    if value.Some? {
      assert (ps + OptionalParam(other, value))[..|ps|] == ps;
    } else {
      assert ps + OptionalParam(other, value) == ps;
    }
  }

  lemma LookupOfOptional(ps: seq<Field>, key: string, value: Option<string>)
    requires Lookup(ps, key).None?
    ensures Lookup(ps + OptionalParam(key, value), key) == value
  {
    if value.None? {
      assert ps + OptionalParam(key, value) == ps;
    }
  }

  /** Each optional parameter is in the list exactly when its value is present,
      with that value: the scope when the application has scopes (even none),
      the state and the prompt when they are not null. */
  lemma OptionalParamsPresentIffGiven(app: DiscordApplication, state: Option<string>, prompt: Option<string>)
    ensures Lookup(AuthorizationParams(app, state, prompt), "scope") == ScopeValue(app)
    ensures Lookup(AuthorizationParams(app, state, prompt), "state") == state
    ensures Lookup(AuthorizationParams(app, state, prompt), "prompt") == prompt
  {
    var p0 := RequiredParams(app);
    var p1 := p0 + OptionalParam("scope", ScopeValue(app));
    var p2 := p1 + OptionalParam("state", state);
    var p3 := p2 + OptionalParam("prompt", prompt);
    assert Lookup(p0, "scope").None? && Lookup(p0, "state").None? && Lookup(p0, "prompt").None?;
    LookupOfOptional(p0, "scope", ScopeValue(app));
    LookupAfterOptional(p0, "state", "scope", ScopeValue(app));
    LookupAfterOptional(p0, "prompt", "scope", ScopeValue(app));
    LookupAfterOptional(p1, "scope", "state", state);
    LookupOfOptional(p1, "state", state);
    LookupAfterOptional(p1, "prompt", "state", state);
    LookupAfterOptional(p2, "scope", "prompt", prompt);
    LookupAfterOptional(p2, "state", "prompt", prompt);
    LookupOfOptional(p2, "prompt", prompt);
  }

  /** `createAuthorizationUrl(application, state, prompt)` once the application
      is known not to be null: the base URL, `?`, then the parameters as
      `key=value` pairs joined by `&`, with nothing escaped. */
  function AuthorizationUrl(f: UrlFactory, app: DiscordApplication, state: Option<string>, prompt: Option<string>): (url: string)
    ensures url == Render(f.baseAuthorizeUrl) + "?" + Encode(AuthorizationParams(app, state, prompt))
  {
    var url := Render(f.baseAuthorizeUrl) + "?";
    var url0 := url + "client_id=" + app.clientId + "&redirect_uri=" + app.redirectUrl + "&response_type=code";
    var url1 := if app.scopes.Some? then url0 + "&scope=" + Join(app.scopes.value, "%20") else url0;
    var url2 := if state.Some? then url1 + "&state=" + state.value else url1;
    var url3 := if prompt.Some? then url2 + "&prompt=" + prompt.value else url2;
    RequiredPartIsEncoded(url, app);
    var p0 := RequiredParams(app);
    var p1 := p0 + OptionalParam("scope", ScopeValue(app));
    var p2 := p1 + OptionalParam("state", state);
    AppendOptionalParam(url, p0, "scope", ScopeValue(app), "&scope=");
    AppendOptionalParam(url, p1, "state", state, "&state=");
    AppendOptionalParam(url, p2, "prompt", prompt, "&prompt=");
    url3
  }

  lemma RequiredPartIsEncoded(prefix: string, app: DiscordApplication)
    ensures prefix + "client_id=" + app.clientId + "&redirect_uri=" + app.redirectUrl + "&response_type=code"
         == prefix + Encode(RequiredParams(app))
  {
    var b := "" + "client_id=" + app.clientId + "&redirect_uri=" + app.redirectUrl + "&response_type=code";
    RequiredParamsAreEncoded(app, b);
    assert prefix + "client_id=" + app.clientId + "&redirect_uri=" + app.redirectUrl + "&response_type=code"
        == prefix + b;
  }

  /** The three required parameters, written one `+=` at a time. */
  lemma RequiredParamsAreEncoded(app: DiscordApplication, body: string)
    requires body == "" + "client_id=" + app.clientId + "&redirect_uri=" + app.redirectUrl + "&response_type=code"
    ensures body == Encode(RequiredParams(app))
  {
    var f2 := [("client_id", app.clientId), ("redirect_uri", app.redirectUrl)];
    var b2 := "" + "client_id=" + app.clientId + "&redirect_uri=" + app.redirectUrl;
    assert b2 == Encode(f2) by { ClientAndRedirectAreEncoded(app, b2); }
    EncodeAppendConstant(f2, "response_type", "code", "&response_type=code");
    assert f2 + [("response_type", "code")] == RequiredParams(app);
  }

  lemma ClientAndRedirectAreEncoded(app: DiscordApplication, body: string)
    requires body == "" + "client_id=" + app.clientId + "&redirect_uri=" + app.redirectUrl
    ensures body == Encode([("client_id", app.clientId), ("redirect_uri", app.redirectUrl)])
  {
    var f1 := [("client_id", app.clientId)];
    var b1 := "" + "client_id=" + app.clientId;
    assert b1 == Encode(f1) by { EncodeFirst("client_id", app.clientId, "client_id="); }
    EncodeAppend(f1, "redirect_uri", app.redirectUrl, "&redirect_uri=");
  }

  /** Appending `&key=value` when the value is present is appending the
      optional parameter to the encoded list. */
  lemma AppendOptionalParam(prefix: string, ps: seq<Field>, key: string, value: Option<string>, text: string)
    requires |ps| >= 1
    requires text == "&" + key + "="
    ensures (if value.Some? then prefix + Encode(ps) + text + value.value else prefix + Encode(ps))
         == prefix + Encode(ps + OptionalParam(key, value))
  {
    if value.Some? {
      EncodeAppend(ps, key, value.value, text);
    } else {
      assert ps + OptionalParam(key, value) == ps;
    }
  }

  /** Read back with the same split-on-`&`-then-`=` parser, the query string
      yields exactly the parameters, provided no value is empty or contains
      `&` or `=`. */
  lemma AuthorizationQueryRoundTrip(f: UrlFactory, app: DiscordApplication, state: Option<string>, prompt: Option<string>)
    requires forall i :: 0 <= i < |AuthorizationParams(app, state, prompt)| ==> SafeField(AuthorizationParams(app, state, prompt)[i])
    ensures
      var url := AuthorizationUrl(f, app, state, prompt);
      var q := |Render(f.baseAuthorizeUrl)| + 1;
      q <= |url| && Parse(url[q..]) == Some(AuthorizationParams(app, state, prompt))
  {
    ParseOfEncode(AuthorizationParams(app, state, prompt));
    var url := AuthorizationUrl(f, app, state, prompt);
    var q := |Render(f.baseAuthorizeUrl)| + 1;
    assert url[q..] == Encode(AuthorizationParams(app, state, prompt));
  }

  /** `createAuthorizationUrl(application, state, prompt)`: a null application
      is rejected; a null state or prompt is not. */
  function CreateAuthorizationUrl(f: UrlFactory, app: Option<DiscordApplication>, state: Option<string>,
                                  prompt: Option<string>): (r: Result<string>)
    ensures app.None? ==> r == Err(NullPointer("application"))
    ensures app.Some? ==> r == Ok(AuthorizationUrl(f, app.value, state, prompt))
  {
    match app
    case None => Err(NullPointer("application"))
    case Some(a) => Ok(AuthorizationUrl(f, a, state, prompt))
  }

  /** `createAuthorizationUrl(application, state)`: no prompt. */
  function CreateAuthorizationUrlWithState(f: UrlFactory, app: Option<DiscordApplication>, state: Option<string>): (r: Result<string>)
    ensures r == CreateAuthorizationUrl(f, app, state, None)
  {
    if app.None? then Err(NullPointer("application")) else CreateAuthorizationUrl(f, app, state, None)
  }

  /** `createAuthorizationUrl(application)`: neither state nor prompt. */
  function CreateAuthorizationUrlPlain(f: UrlFactory, app: Option<DiscordApplication>): (r: Result<string>)
    ensures r == CreateAuthorizationUrl(f, app, None, None)
  {
    if app.None? then Err(NullPointer("application")) else CreateAuthorizationUrl(f, app, None, None)
  }

  /** The URL the test suite expects, up to the optional parameters, for a
      client id of any value and the redirect `https://localhost:8080`. */
  function ExpectedHead(app: DiscordApplication): string
  {
    "https://discord.com/oauth2/authorize" + "?" + "client_id=" + app.clientId
      + "&redirect_uri=" + "https://localhost:8080" + "&response_type=code"
  }

  /** The application of the test suite: the scopes `identify` and `guilds`. */
  predicate TestApplication(app: DiscordApplication)
  {
    app.redirectUrl == "https://localhost:8080" && app.scopes == Some(["identify", "guilds"])
  }

  lemma TestScopeValue(app: DiscordApplication)
    requires TestApplication(app)
    ensures ScopeValue(app) == Some("identify%20guilds")
  {
    JoinCons("identify", ["guilds"], "%20");
    assert ["identify"] + ["guilds"] == ["identify", "guilds"];
    assert Join(["guilds"], "%20") == "guilds";
    assert "identify" + "%20" + "guilds" == "identify%20guilds";
  }

  /** With state and prompt: `...&scope=identify%20guilds&state=<state>&prompt=consent`. */
  lemma AuthorizationUrlWithStateAndPrompt(app: DiscordApplication, state: string)
    requires TestApplication(app)
    ensures AuthorizationUrl(DefaultUrlFactory(), app, Some(state), Some("consent"))
         == ExpectedHead(app) + "&scope=" + "identify%20guilds" + "&state=" + state + "&prompt=" + "consent"
  {
    TestScopeValue(app);
  }

  /** Neither state nor prompt: the URL ends with the scope. */
  lemma AuthorizationUrlWithScopeOnly(app: DiscordApplication)
    requires TestApplication(app)
    ensures AuthorizationUrl(DefaultUrlFactory(), app, None, None)
         == ExpectedHead(app) + "&scope=" + "identify%20guilds"
  {
    TestScopeValue(app);
  }

  /** A null state is skipped, and the prompt follows the scope. */
  lemma AuthorizationUrlWithPromptOnly(app: DiscordApplication)
    requires TestApplication(app)
    ensures AuthorizationUrl(DefaultUrlFactory(), app, None, Some("consent"))
         == ExpectedHead(app) + "&scope=" + "identify%20guilds" + "&prompt=" + "consent"
  {
    TestScopeValue(app);
  }

  /** An application built without scopes has no scope parameter. */
  lemma AuthorizationUrlWithoutScopes(app: DiscordApplication, state: string)
    requires app.redirectUrl == "https://localhost:8080" && app.scopes.None?
    ensures AuthorizationUrl(DefaultUrlFactory(), app, Some(state), None)
         == ExpectedHead(app) + "&state=" + state
  {
  }

  // ---------------------------------------------------------------------
  // DiscordApplication's own createAuthorizationUrl overloads

  /** `application.createAuthorizationUrl(state, prompt)`: its factory, applied
      to the application itself. */
  function ApplicationAuthorizationUrl(app: DiscordApplication, state: Option<string>, prompt: Option<string>): (url: string)
    ensures CreateAuthorizationUrl(app.authorizationUrlFactory, Some(app), state, prompt) == Ok(url)
  {
    AuthorizationUrl(app.authorizationUrlFactory, app, state, prompt)
  }

  /** `application.createAuthorizationUrl(state)`. */
  function ApplicationAuthorizationUrlWithState(app: DiscordApplication, state: Option<string>): (url: string)
    ensures CreateAuthorizationUrlWithState(app.authorizationUrlFactory, Some(app), state) == Ok(url)
  {
    AuthorizationUrl(app.authorizationUrlFactory, app, state, None)
  }

  /** `application.createAuthorizationUrl()`. */
  function ApplicationAuthorizationUrlPlain(app: DiscordApplication): (url: string)
    ensures CreateAuthorizationUrlPlain(app.authorizationUrlFactory, Some(app)) == Ok(url)
  {
    AuthorizationUrl(app.authorizationUrlFactory, app, None, None)
  }

  // ---------------------------------------------------------------------
  // Builder

  const BuildFailureMessage: string := "Client ID, client secret and redirect URL must be set."

  /** `DiscordApplication.Builder`. The API URL and the factory start with
      defaults and their setters reject null, so they are never null. */
  datatype Builder = Builder(
    apiUrl: string,
    clientId: Option<string>,
    clientSecret: Option<string>,
    redirectUrl: Option<string>,
    scopes: Option<seq<string>>,
    authorizationUrlFactory: UrlFactory)

  /** `new Builder()`. */
  function NewBuilder(): (b: Builder)
    ensures b.apiUrl == DiscordApiClient.DefaultApiUrl
    ensures b.clientId.None? && b.clientSecret.None? && b.redirectUrl.None?
    ensures b.scopes.None?
    ensures b.authorizationUrlFactory == DefaultUrlFactory()
  {
    Builder(DiscordApiClient.DefaultApiUrl, None, None, None, None, DefaultUrlFactory())
  }

  /** `withApiUrl`: rejects null; sets the API URL and nothing else. */
  function WithApiUrl(b: Builder, apiUrl: Option<string>): (r: Result<Builder>)
    ensures apiUrl.None? ==> r == Err(NullPointer("apiUrl"))
    ensures apiUrl.Some? ==> r.Ok? && r.value.apiUrl == apiUrl.value && r.value.(apiUrl := b.apiUrl) == b
  {
    if apiUrl.None? then Err(NullPointer("apiUrl")) else Ok(b.(apiUrl := apiUrl.value))
  }

  /** `withClientId`: rejects null; sets the client id and nothing else. */
  function WithClientId(b: Builder, clientId: Option<string>): (r: Result<Builder>)
    ensures clientId.None? ==> r == Err(NullPointer("clientId"))
    ensures clientId.Some? ==> r.Ok? && r.value.clientId == clientId && r.value.(clientId := b.clientId) == b
  {
    if clientId.None? then Err(NullPointer("clientId")) else Ok(b.(clientId := clientId))
  }

  /** `withClientSecret`: rejects null; sets the client secret and nothing else. */
  function WithClientSecret(b: Builder, clientSecret: Option<string>): (r: Result<Builder>)
    ensures clientSecret.None? ==> r == Err(NullPointer("clientSecret"))
    ensures clientSecret.Some? ==> r.Ok? && r.value.clientSecret == clientSecret && r.value.(clientSecret := b.clientSecret) == b
  {
    if clientSecret.None? then Err(NullPointer("clientSecret")) else Ok(b.(clientSecret := clientSecret))
  }

  /** `withRedirectUrl`: rejects null; sets the redirect URL and nothing else. */
  function WithRedirectUrl(b: Builder, redirectUrl: Option<string>): (r: Result<Builder>)
    ensures redirectUrl.None? ==> r == Err(NullPointer("redirectUrl"))
    ensures redirectUrl.Some? ==> r.Ok? && r.value.redirectUrl == redirectUrl && r.value.(redirectUrl := b.redirectUrl) == b
  {
    if redirectUrl.None? then Err(NullPointer("redirectUrl")) else Ok(b.(redirectUrl := redirectUrl))
  }

  /** `withScopes`: rejects a null array (an empty one is fine); sets the
      scopes and nothing else. */
  function WithScopes(b: Builder, scopes: Option<seq<string>>): (r: Result<Builder>)
    ensures scopes.None? ==> r == Err(NullPointer("scopes"))
    ensures scopes.Some? ==> r.Ok? && r.value.scopes == scopes && r.value.(scopes := b.scopes) == b
  {
    if scopes.None? then Err(NullPointer("scopes")) else Ok(b.(scopes := scopes))
  }

  /** `withAuthorizationUrlFactory`: rejects null; sets the factory and nothing else. */
  function WithAuthorizationUrlFactory(b: Builder, f: Option<UrlFactory>): (r: Result<Builder>)
    ensures f.None? ==> r == Err(NullPointer("authorizationUrlFactory"))
    ensures f.Some? ==> r.Ok? && r.value.authorizationUrlFactory == f.value
                        && r.value.(authorizationUrlFactory := b.authorizationUrlFactory) == b
  {
    if f.None? then Err(NullPointer("authorizationUrlFactory")) else Ok(b.(authorizationUrlFactory := f.value))
  }

  /** `build()`: fails with `IllegalStateException` unless the client id, the
      client secret and the redirect URL are all set; otherwise an application
      holding exactly the builder's six fields. */
  function Build(b: Builder): (r: Result<DiscordApplication>)
    ensures r.Ok? <==> b.clientId.Some? && b.clientSecret.Some? && b.redirectUrl.Some?
    ensures r.Err? ==> r.failure == IllegalState(BuildFailureMessage)
    ensures r.Ok? ==>
      r.value == DiscordApplication(b.apiUrl, b.clientId.value, b.clientSecret.value, b.redirectUrl.value,
                                    b.scopes, b.authorizationUrlFactory)
  {
    if b.clientId.None? || b.clientSecret.None? || b.redirectUrl.None? then
      Err(IllegalState(BuildFailureMessage))
    else
      NewApplication(Some(b.apiUrl), b.clientId, b.clientSecret, b.redirectUrl, Some(b.authorizationUrlFactory), b.scopes)
  }

  /** Setting the three required fields one at a time on a fresh builder: the
      build fails until the last of them is set. */
  lemma BuildSucceedsOnlyOnceAllRequiredAreSet(clientId: string, clientSecret: string, redirectUrl: string)
    ensures
      var b0 := NewBuilder();
      var b1 := WithClientId(b0, Some(clientId)).value;
      var b2 := WithClientSecret(b1, Some(clientSecret)).value;
      var b3 := WithRedirectUrl(b2, Some(redirectUrl)).value;
      Build(b0).Err? && Build(b1).Err? && Build(b2).Err? && Build(b3).Ok?
  {
  }
}
