/**
 `DiscordApi`: the client for the user resource. Its one call describes
 `GET /users/@me` with the access token as a bearer credential (section 2.1
 of RFC 6750).
 */
module DiscordApiClient {
  import opened JavaBasics
  import opened JavaStrings
  import opened Http

  const DefaultApiUrl: string := "https://discord.com/api/v10"

  const UserEndpoint: string := "/users/@me"

  const BearerPrefix: string := "Bearer "

  datatype DiscordApi = DiscordApi(apiUrl: string)

  /** `getDefaultUrl()`: the root every request of this client is sent to,
      which is the URL the client was constructed with. */
  function DefaultUrl(api: DiscordApi): (url: string)
    ensures url == api.apiUrl
  {
    api.apiUrl
  }

  /** `getDefaultRequestHeaders()`: one header, the library's User-Agent, and
      nothing a lookup of any other name would find. */
  function DefaultRequestHeaders(api: DiscordApi): (hs: seq<Header>)
    ensures |hs| == 1
    ensures HeaderValue(hs, "User-Agent") == Some("Java-Discord-OAuth2 (dev.mayuna, 1.0)")
    ensures forall name :: !EqualsIgnoreCase("User-Agent", name) ==> HeaderValue(hs, name).None?
  {
    UserAgentIsTheOnlyHeader();
    [UserAgentHeader]
  }

  /** `new DiscordApi(apiUrl)`: rejects null and keeps the URL as given. */
  function NewDiscordApi(apiUrl: Option<string>): (r: Result<DiscordApi>)
    ensures apiUrl.None? ==> r == Err(NullPointer("apiUrl"))
    ensures apiUrl.Some? ==> r.Ok? && DefaultUrl(r.value) == apiUrl.value
  {
    match apiUrl
    case None => Err(NullPointer("apiUrl"))
    case Some(u) => Ok(DiscordApi(u))
  }

  /** `new DiscordApi()`: the public Discord API, version 10. */
  function DefaultDiscordApi(): (api: DiscordApi)
    ensures DefaultUrl(api) == "https://discord.com/api/v10"
  {
    NewDiscordApi(Some(DefaultApiUrl)).value
  }

  /** `fetchUser(accessToken)`: a null token is rejected before anything is
      built; otherwise a GET of `/users/@me` whose Authorization header is
      `Bearer ` followed by the raw token, sent to this client's URL with its
      one User-Agent default header, and read as a `DiscordUser`. */
  function FetchUser(api: DiscordApi, accessToken: Option<string>): (r: Result<ApiRequest>)
    ensures accessToken.None? ==> r == Err(NullPointer("accessToken"))
    ensures accessToken.Some? ==> r.Ok?
    ensures r.Ok? ==>
      && r.value.baseUrl == DefaultUrl(api)
      && r.value.defaultHeaders == [UserAgentHeader]
      && r.value.verb == GET
      && r.value.endpoint == "/users/@me"
      && r.value.body.None?
      && r.value.expects == UserKind
      && r.value.headers == [Header("Authorization", "Bearer " + accessToken.value)]
    ensures r.Ok? ==>
      var auth := HeaderValue(r.value.headers, "Authorization");
      auth.Some? && StartsWith(auth.value, "Bearer ") && auth.value[7..] == accessToken.value
  {
    match accessToken
    case None => Err(NullPointer("accessToken"))
    case Some(t) =>
      var auth := BearerPrefix + t;
      assert auth[..7] == BearerPrefix && auth[7..] == t;
      Ok(ApiRequest(DefaultUrl(api), DefaultRequestHeaders(api), GET, UserEndpoint,
                    [Header("Authorization", auth)], None, UserKind))
  }
}
