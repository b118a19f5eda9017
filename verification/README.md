# Discord OAuth2 client, modelled in Dafny

A model of the core of a small Java client library for Discord's OAuth2 and
user APIs, together with the two in-process servers its test suite runs
against.

- **Authorization URL.** `DiscordOAuthAuthorizationUrlFactory` writes the
  authorization request. The three required parameters come first, then
  scope, state and prompt, each only when it is present. Nothing is escaped
  except that scopes are joined with a literal `%20`.
- **Application configuration.** `DiscordApplication` holds the
  configuration. Its `Builder` rejects null arguments. `build` fails until
  the client id, the client secret and the redirect URL are all set.
- **OAuth client.** `DiscordOAuth` builds the three form-encoded POSTs of
  the OAuth 2.0 framework: the code exchange (section 4.1.3 of RFC 6749),
  the refresh (section 6 of RFC 6749) and the revocation (section 2.1 of
  RFC 7009). The fields are written in a fixed order and nothing is escaped.
- **User client.** `DiscordApi.fetchUser` builds a `GET /users/@me`
  carrying a bearer token (section 2.1 of RFC 6750).
- **Access token.** `DiscordAccessToken` computes its expiry in 64-bit
  `long` arithmetic and splits its scope string with `String.split(" ")`.
- **User id.** `DiscordUser.getIdAsLong` is `Long.parseLong`, modelled
  twice: as a declarative definition, and as the JDK's loop proved equal to
  that definition.
- **Token server.** The test token server is a state machine. It is
  configured with one set of credentials, a code and a scope, and it
  remembers the last tokens it issued. Its checks run in the server's own
  order, with the server's exact error strings.
- **User server.** The test user server answers one route, after checking
  the bearer token.

Java `null` is `Option.None`. A Lombok `@NonNull` check is a `Result`
whose failure names the parameter. An exception thrown inside a server
handler is the reply `Crash`.

The modules follow the program's structure:
- `JavaBasics`, `JavaStrings` and `JavaLong`: the JDK behaviour the core
  relies on.
- `Http` and `FormEncoding`: the request descriptor, and the form body as it
  is written and read.
- `Entities`: the access token and the user.
- `DiscordApiClient`, `Application` and `DiscordOAuthClient`: the two
  clients and the configuration.
- `MockServer`, `OAuthServer` and `ApiServer`: the test servers.
- `Scenarios`: each client against its server.

Two facts about the code that shape the model:
- **Configuration values.** Only null is rejected; empty strings are
  accepted.
- **Scope round trip.** It holds only when no scope contains a space and the
  last one is not empty, because `String.split` drops trailing empty
  strings.

## Model

| member | source | states |
|---|---|---|
| JavaStrings.Split | src/main/java/dev/mayuna/discord/oauth/entities/DiscordAccessToken.java:47 | No piece contains the separator. A string without the separator comes back whole. Otherwise the last piece is not empty, because trailing empty strings are dropped. |
| JavaStrings.SplitOfJoin | src/main/java/dev/mayuna/discord/oauth/entities/DiscordAccessToken.java:42-48 | Splitting the join of separator-free pieces, whose last piece is not empty, gives the pieces back. |
| JavaStrings.SplitFirstTwo | src/test/java/dev/mayuna/discord/oauth/server/DiscordOAuthServerMock.java:91-94 | A string with two separators, whose second piece is not empty, splits into at least two pieces: the text before the first separator and the text between the first two. |
| JavaLong.Wrap | src/main/java/dev/mayuna/discord/oauth/entities/DiscordAccessToken.java:34 | The result is a `long` congruent to the argument modulo 2^64, which is Java's wrap-around. |
| JavaLong.WrapInRange | src/main/java/dev/mayuna/discord/oauth/entities/DiscordAccessToken.java:34 | A value already in the `long` range is unchanged by wrap-around. |
| JavaLong.ParseLong | src/main/java/dev/mayuna/discord/api/entities/DiscordUser.java:33-35 | `Long.parseLong` succeeds exactly on an optional sign followed by one or more digits whose value fits a `long`, and returns that value. |
| JavaLong.ParseLongLoop | src/main/java/dev/mayuna/discord/api/entities/DiscordUser.java:33-35 | The JDK's parse loop (negative accumulation with the `multmin` and `limit` checks) returns the same answer as the definition on every input. |
| JavaLong.ParseDecimalString | src/main/java/dev/mayuna/discord/api/entities/DiscordUser.java:33-35 | The decimal rendering of any non-negative `long` parses back to itself. |
| Entities.IdAsLong | src/main/java/dev/mayuna/discord/api/entities/DiscordUser.java:33-35 | `getIdAsLong` succeeds exactly when the id is present and is a `long` literal in range, and gives its value. A null or malformed id gives no value. |
| Entities.IdAsLongOfDecimal | src/main/java/dev/mayuna/discord/api/entities/DiscordUser.java:33-35 | A snowflake id written in decimal reads back as the same number. |
| Entities.IsAccessTokenExpired | src/main/java/dev/mayuna/discord/oauth/entities/DiscordAccessToken.java:33-35 | Whenever neither side of the comparison overflows, the token is expired iff more milliseconds have elapsed since `fetchedAt` than the lifetime. |
| Entities.NotExpiredAtBoundary | src/main/java/dev/mayuna/discord/oauth/entities/DiscordAccessToken.java:34 | The comparison is strict: at exactly the lifetime the token is still valid. |
| Entities.ExpiryIsMonotone | src/main/java/dev/mayuna/discord/oauth/entities/DiscordAccessToken.java:34 | Once expired, a token stays expired as the clock advances. |
| Entities.FreshTokenNotExpired | src/main/java/dev/mayuna/discord/oauth/entities/DiscordAccessToken.java:20-35 | A token whose lifetime in milliseconds is a non-negative `long` is not expired at the moment it is fetched. |
| Entities.OneSecondLifetime | src/test/java/dev/mayuna/discord/oauth/DiscordAccessTokenTest.java:34-42 | With a one-second lifetime, a token fetched 1001 ms ago is expired and one stamped 1001 ms ahead is not. |
| Entities.HugeLifetimeReadsAsExpired | src/main/java/dev/mayuna/discord/oauth/entities/DiscordAccessToken.java:34 | The smallest lifetime whose millisecond product overflows makes a token read as expired at its own fetch time. |
| Entities.ElapsedTimeWraps | src/main/java/dev/mayuna/discord/oauth/entities/DiscordAccessToken.java:34 | The subtraction `now - fetchedAt` wraps too: a token stamped at `Long.MIN_VALUE` with no lifetime is expired at -1 ms and not expired at 0 ms. |
| Entities.IsAccessTokenExpiredExact | src/main/java/dev/mayuna/discord/oauth/entities/DiscordAccessToken.java:28-35 | Expiry compared without the 64-bit product agrees with the method wherever the method's arithmetic is exact. |
| Entities.ExactFreshTokenNotExpired | src/main/java/dev/mayuna/discord/oauth/entities/DiscordAccessToken.java:28-35 | Without the wrap-around, a token with a non-negative lifetime is never expired when fetched. |
| Entities.ExactExpiryIsMonotone | src/main/java/dev/mayuna/discord/oauth/entities/DiscordAccessToken.java:28-35 | Without the wrap-around, expiry is monotone in the clock for every token. |
| Entities.GetScopes | src/main/java/dev/mayuna/discord/oauth/entities/DiscordAccessToken.java:37-48 | A null or empty scope gives an empty list, never null. No listed scope contains a space. A single space-free scope gives a one-element list. |
| Entities.ScopesOfJoin | src/main/java/dev/mayuna/discord/oauth/entities/DiscordAccessToken.java:42-48 | A scope string made by joining space-free scopes, the last not empty, with single spaces splits back into exactly those scopes. |
| Entities.ScopesExamples | src/test/java/dev/mayuna/discord/oauth/DiscordAccessTokenTest.java:14-22 | `"identify guilds"` gives `identify`, `guilds`. `"identify"` gives `identify`. |
| Http.HeaderValue | src/test/java/dev/mayuna/discord/oauth/server/DiscordOAuthServerMock.java:72 | A header lookup answers null iff no header name matches ignoring ASCII case. Otherwise it answers the value of the first matching header. |
| Http.HeaderValueSkips | src/test/java/dev/mayuna/discord/api/server/DiscordApiMock.java:60 | Headers of other names in front of the wanted one do not change the lookup. |
| FormEncoding.EncodeSnoc | src/main/java/dev/mayuna/discord/oauth/DiscordOAuth.java:52-58 | Each `body += "&k=" + v` appends the field `(k, v)` to the encoded field list. |
| FormEncoding.ParsePart | src/test/java/dev/mayuna/discord/oauth/server/DiscordOAuthServerMock.java:91-94 | A body part without `=` does not parse, since reading the value throws. A part that parses has no `=` in its key or value. |
| FormEncoding.ParseParts | src/test/java/dev/mayuna/discord/oauth/server/DiscordOAuthServerMock.java:90-116 | A body parses iff every one of its parts does. The fields then come out in order, one per part. |
| FormEncoding.Parse | src/test/java/dev/mayuna/discord/oauth/server/DiscordOAuthServerMock.java:81-94 | A body parses iff every part of `body.split("&")` splits into a key and a value, and then gives one field per part, in order. An empty body never parses. |
| FormEncoding.Lookup | src/test/java/dev/mayuna/discord/oauth/server/DiscordOAuthServerMock.java:96-115 | The value the handler keeps for a key is null iff no field has that key. Otherwise it is the value of the last field with that key. |
| FormEncoding.ParsePartEmptyValue | src/test/java/dev/mayuna/discord/oauth/server/DiscordOAuthServerMock.java:91-94 | A part `key=` with nothing after the `=` does not parse. |
| FormEncoding.ParsePartTruncates | src/test/java/dev/mayuna/discord/oauth/server/DiscordOAuthServerMock.java:91-94 | A value containing `=` is cut at that `=`. |
| FormEncoding.ParseOfEncodeWithEmptyValue | src/test/java/dev/mayuna/discord/oauth/server/DiscordOAuthServerMock.java:90-94 | A body with an empty value in any field does not parse at all, because the loop throws at that part. |
| FormEncoding.ParseOfEncode | src/test/java/dev/mayuna/discord/oauth/server/DiscordOAuthServerMock.java:81-116 | The server's split-on-`&`-then-`=` parser recovers, in order, every field the client encodes. This holds when no key or value contains `&` or `=` and no value is empty. |
| FormEncoding.LookupDistinct | src/test/java/dev/mayuna/discord/oauth/server/DiscordOAuthServerMock.java:96-115 | With distinct keys, each key's lookup finds its own value. |
| DiscordApiClient.NewDiscordApi | src/main/java/dev/mayuna/discord/api/DiscordApi.java:23-25 | A null URL is rejected. Otherwise the client's default URL is the given one. |
| DiscordApiClient.DefaultDiscordApi | src/main/java/dev/mayuna/discord/api/DiscordApi.java:30-32 | The no-argument client targets `https://discord.com/api/v10`. |
| DiscordApiClient.DefaultUrl | src/main/java/dev/mayuna/discord/api/DiscordApi.java:34-37 | Every request of the user client goes to the URL it was constructed with. |
| DiscordApiClient.DefaultRequestHeaders | src/main/java/dev/mayuna/discord/api/DiscordApi.java:39-44 | The default headers are one User-Agent header, `Java-Discord-OAuth2 (dev.mayuna, 1.0)`, and a lookup of any other name finds nothing. |
| DiscordApiClient.FetchUser | src/main/java/dev/mayuna/discord/api/DiscordApi.java:55-61 | A null token is rejected. The request is a GET of `/users/@me` to the client's URL, with the User-Agent default header and no body, read as a user. Its only header is `Authorization`, whose value is `Bearer ` followed by exactly the token. |
| Application.DefaultUrlFactory | src/main/java/dev/mayuna/discord/oauth/DiscordOAuthAuthorizationUrlFactory.java:29-31 | The default factory's base is `https://discord.com/oauth2/authorize`. |
| Application.NewApplication | src/main/java/dev/mayuna/discord/oauth/DiscordApplication.java:33-40 | Construction succeeds iff none of the five non-null arguments is null. Otherwise the first null one, in the order apiUrl, clientId, clientSecret, redirectUrl, authorizationUrlFactory, is named. Scopes may be null. The fields are kept as given. |
| Application.AuthorizationParams | src/main/java/dev/mayuna/discord/oauth/DiscordOAuthAuthorizationUrlFactory.java:43-55 | The parameter list starts with `client_id`, `redirect_uri` and `response_type=code`. It holds 3 to 6 parameters in strictly increasing fixed order: scope, then state, then prompt. |
| Application.OptionalParamsPresentIffGiven | src/main/java/dev/mayuna/discord/oauth/DiscordOAuthAuthorizationUrlFactory.java:45-55 | Scope, state and prompt are each in the URL iff they are non-null, and carry their value. Scopes are joined with `%20`. |
| Application.AuthorizationUrl | src/main/java/dev/mayuna/discord/oauth/DiscordOAuthAuthorizationUrlFactory.java:42-58 | The URL is the base (`null` when the base is null), `?`, and then the parameter list encoded as unescaped `k=v` pairs joined by `&`. |
| Application.AuthorizationQueryRoundTrip | src/main/java/dev/mayuna/discord/oauth/DiscordOAuthAuthorizationUrlFactory.java:43-55 | Reading the query string back with the form parser gives exactly the parameter list, when no value contains `&` or `=` or is empty. |
| Application.CreateAuthorizationUrl | src/main/java/dev/mayuna/discord/oauth/DiscordOAuthAuthorizationUrlFactory.java:42-58 | A null application is rejected. Null state or prompt is not. |
| Application.CreateAuthorizationUrlWithState | src/main/java/dev/mayuna/discord/oauth/DiscordOAuthAuthorizationUrlFactory.java:68-70 | The two-argument overload is the full one with no prompt. |
| Application.CreateAuthorizationUrlPlain | src/main/java/dev/mayuna/discord/oauth/DiscordOAuthAuthorizationUrlFactory.java:79-81 | The one-argument overload is the full one with neither state nor prompt. |
| Application.AuthorizationUrlWithStateAndPrompt | src/test/java/dev/mayuna/discord/oauth/DiscordOAuthAuthorizationUrlFactoryTest.java:43-45 | The test's URL with scope, state and `prompt=consent`. |
| Application.AuthorizationUrlWithScopeOnly | src/test/java/dev/mayuna/discord/oauth/DiscordOAuthAuthorizationUrlFactoryTest.java:47-49 | The test's URL with only the scope. |
| Application.AuthorizationUrlWithPromptOnly | src/test/java/dev/mayuna/discord/oauth/DiscordOAuthAuthorizationUrlFactoryTest.java:51-53 | A null state is skipped and the prompt follows the scope. |
| Application.AuthorizationUrlWithoutScopes | src/test/java/dev/mayuna/discord/oauth/DiscordOAuthAuthorizationUrlFactoryTest.java:59-61 | An application without scopes has no scope parameter. |
| Application.ApplicationAuthorizationUrl | src/main/java/dev/mayuna/discord/oauth/DiscordApplication.java:50-52 | The application's own method gives what its factory gives for it. |
| Application.ApplicationAuthorizationUrlWithState | src/main/java/dev/mayuna/discord/oauth/DiscordApplication.java:61-63 | The same, for the state-only overload. |
| Application.ApplicationAuthorizationUrlPlain | src/main/java/dev/mayuna/discord/oauth/DiscordApplication.java:69-71 | The same, for the no-argument overload. |
| Application.NewBuilder | src/main/java/dev/mayuna/discord/oauth/DiscordApplication.java:79-90 | A new builder has the default API URL and the default factory, and no client id, secret, redirect URL or scopes. |
| Application.WithApiUrl | src/main/java/dev/mayuna/discord/oauth/DiscordApplication.java:99-102 | A null URL is rejected. Otherwise the API URL is set and nothing else changes. |
| Application.WithClientId | src/main/java/dev/mayuna/discord/oauth/DiscordApplication.java:111-114 | A null client id is rejected. Otherwise the client id is set and nothing else changes. |
| Application.WithClientSecret | src/main/java/dev/mayuna/discord/oauth/DiscordApplication.java:123-126 | A null client secret is rejected. Otherwise the client secret is set and nothing else changes. |
| Application.WithRedirectUrl | src/main/java/dev/mayuna/discord/oauth/DiscordApplication.java:135-138 | A null redirect URL is rejected. Otherwise the redirect URL is set and nothing else changes. |
| Application.WithScopes | src/main/java/dev/mayuna/discord/oauth/DiscordApplication.java:147-150 | A null array is rejected, but an empty one is accepted. Otherwise the scopes are set and nothing else changes. |
| Application.WithAuthorizationUrlFactory | src/main/java/dev/mayuna/discord/oauth/DiscordApplication.java:159-162 | A null factory is rejected. Otherwise the factory is set and nothing else changes. |
| Application.Build | src/main/java/dev/mayuna/discord/oauth/DiscordApplication.java:169-175 | The build fails with the `IllegalStateException` message iff the client id, the secret or the redirect URL is unset. Otherwise the application carries exactly the builder's six fields. |
| Application.BuildSucceedsOnlyOnceAllRequiredAreSet | src/test/java/dev/mayuna/discord/oauth/DiscordApplicationTest.java:43-53 | When the three required fields are set one at a time, the build fails until the last one is set. |
| DiscordOAuthClient.NewDiscordOAuth | src/main/java/dev/mayuna/discord/oauth/DiscordOAuth.java:22-24 | A null application is rejected. |
| DiscordOAuthClient.DefaultUrl | src/main/java/dev/mayuna/discord/oauth/DiscordOAuth.java:29-32 | Every request of the OAuth client goes to its application's API URL. |
| DiscordOAuthClient.DefaultRequestHeaders | src/main/java/dev/mayuna/discord/oauth/DiscordOAuth.java:34-39 | The default headers are the same single User-Agent header as the user client's. |
| DiscordOAuthClient.FetchAccessToken | src/main/java/dev/mayuna/discord/oauth/DiscordOAuth.java:51-66 | A null code is rejected. The request is a form POST to `/oauth2/token` whose body encodes client id, secret, `grant_type=authorization_code`, code and redirect URI, in that order, read as a token. |
| DiscordOAuthClient.RefreshAccessToken | src/main/java/dev/mayuna/discord/oauth/DiscordOAuth.java:76-90 | A null token is rejected. The request is a form POST to `/oauth2/token` whose body encodes client id, secret, `grant_type=refresh_token` and the refresh token, in that order. |
| DiscordOAuthClient.RevokeTokens | src/main/java/dev/mayuna/discord/oauth/DiscordOAuth.java:101-114 | A null token is rejected. The request is a form POST to `/oauth2/token/revoke` whose body encodes the token, client id and secret, read as a bare response. |
| DiscordOAuthClient.FetchFieldsLookup | src/main/java/dev/mayuna/discord/oauth/DiscordOAuth.java:54-58 | Every field of the exchange body is found under its own name. |
| DiscordOAuthClient.RefreshFieldsLookup | src/main/java/dev/mayuna/discord/oauth/DiscordOAuth.java:79-82 | Every field of the refresh body is found under its own name. |
| DiscordOAuthClient.RevokeFieldsLookup | src/main/java/dev/mayuna/discord/oauth/DiscordOAuth.java:104-106 | Every field of the revocation body is found under its own name. |
| DiscordOAuthClient.FetchBodyReadsBack | src/main/java/dev/mayuna/discord/oauth/DiscordOAuth.java:51-66 | The token server reads the exchange body back as its five fields when the values are form-safe. |
| DiscordOAuthClient.RefreshBodyReadsBack | src/main/java/dev/mayuna/discord/oauth/DiscordOAuth.java:76-90 | The token server reads the refresh body back as its four fields. |
| DiscordOAuthClient.RevokeBodyReadsBack | src/main/java/dev/mayuna/discord/oauth/DiscordOAuth.java:101-114 | The token server reads the revocation body back as its three fields. |
| DiscordOAuthClient.EmptyCodeBodyDoesNotParse | src/main/java/dev/mayuna/discord/oauth/DiscordOAuth.java:57 | An empty code is sent as `code=`, and the server's parser rejects the whole body. |
| MockServer.ErrorReply | src/test/java/dev/mayuna/discord/oauth/server/DiscordOAuthServerMock.java:248-256 | An error reply is status 400 with the JSON content type, carrying the error and its description. |
| OAuthServer.NewOAuthMock | src/test/java/dev/mayuna/discord/oauth/server/DiscordOAuthServerMock.java:34-40 | A new server has issued no tokens. |
| OAuthServer.GrantToken | src/test/java/dev/mayuna/discord/oauth/server/DiscordOAuthServerMock.java:118-187 | A grant succeeds iff it is a valid code exchange (credentials, redirect URI, code) or a valid refresh (credentials, last refresh token). Success replies with the issued pair and remembers it. Failure is a 400 error that changes nothing, and the first failing check picks it: client id, client secret, missing grant type, then redirect URI before code, or no refresh token held before a wrong one, or an unknown grant type. |
| OAuthServer.HandleToken | src/test/java/dev/mayuna/discord/oauth/server/DiscordOAuthServerMock.java:71-188 | The configuration never changes. The handler crashes iff the content type is right and the body does not parse. It answers 200 iff the body parses into a valid grant, and then issues the new pair. Any other outcome leaves the state unchanged. |
| OAuthServer.Revoke | src/test/java/dev/mayuna/discord/oauth/server/DiscordOAuthServerMock.java:224-244 | A revocation succeeds iff the credentials match and the token is the last access token issued. Success forgets both tokens and replies `{}`. Failure changes nothing, and the first failing check picks the error: client id, client secret, then the token. |
| OAuthServer.HandleRevoke | src/test/java/dev/mayuna/discord/oauth/server/DiscordOAuthServerMock.java:190-245 | The revocation route follows the same discipline: a crash only on an unparsable body, and 200 iff the revocation is valid, after which no token is remembered. |
| OAuthServer.Serve | src/test/java/dev/mayuna/discord/oauth/server/DiscordOAuthServerMock.java:70-190 | Only `POST /oauth2/token` and `POST /oauth2/token/revoke` are served. Any other request finds no route and changes nothing. |
| OAuthServer.TokenReply | src/test/java/dev/mayuna/discord/oauth/server/DiscordOAuthServerMock.java:145-157 | A grant's reply is 200 JSON with the new tokens, type `Bearer`, 604800 seconds and the configured scope. |
| OAuthServer.ContentTypeCheckedFirst | src/test/java/dev/mayuna/discord/oauth/server/DiscordOAuthServerMock.java:72-77 | Without the form content type, both routes reject before reading the body, whatever it holds. |
| OAuthServer.ClientIdCheckedBeforeAnythingElse | src/test/java/dev/mayuna/discord/oauth/server/DiscordOAuthServerMock.java:118-121 | A wrong or missing client id is the error reported on both routes, before the other checks. |
| OAuthServer.WrongSecretReported | src/test/java/dev/mayuna/discord/oauth/server/DiscordOAuthServerMock.java:123-126 | With the right client id, a wrong or missing secret is the error on both routes, whatever follows. |
| OAuthServer.MissingGrantReported | src/test/java/dev/mayuna/discord/oauth/server/DiscordOAuthServerMock.java:128-131 | An authenticated token request without a grant type is refused for its missing grant type. |
| OAuthServer.WrongRedirectReported | src/test/java/dev/mayuna/discord/oauth/server/DiscordOAuthServerMock.java:135-138 | In a code exchange the redirect URI is checked before the code, so a wrong one is reported whatever the code. |
| OAuthServer.ParsedTokenRequestIsGranted | src/test/java/dev/mayuna/discord/oauth/server/DiscordOAuthServerMock.java:72-94 | Once the content type is right and every body part splits into a key and a value, the token route acts on the fields alone. |
| OAuthServer.ParsedRevokeRequestIsRevoked | src/test/java/dev/mayuna/discord/oauth/server/DiscordOAuthServerMock.java:190-206 | Once the content type is right and the body parses, the revocation route acts on the fields alone. |
| OAuthServer.UnknownGrantRejected | src/test/java/dev/mayuna/discord/oauth/server/DiscordOAuthServerMock.java:184-186 | Any grant type other than the two supported ones is refused as unsupported. |
| OAuthServer.WrongCodeReported | src/test/java/dev/mayuna/discord/oauth/server/DiscordOAuthServerMock.java:140-143 | A wrong code is refused with the code error. |
| OAuthServer.WrongRefreshTokenReported | src/test/java/dev/mayuna/discord/oauth/server/DiscordOAuthServerMock.java:165-168 | A refresh token other than the last one issued is refused with the refresh-token error. |
| OAuthServer.NoRefreshTokenReported | src/test/java/dev/mayuna/discord/oauth/server/DiscordOAuthServerMock.java:160-163 | A refresh before any grant, or after a revocation, is refused with the missing-refresh-token error, whatever token it carries. |
| OAuthServer.RevokeWithoutTokenRejected | src/test/java/dev/mayuna/discord/oauth/server/DiscordOAuthServerMock.java:234-237 | With no access token remembered, no revocation succeeds or changes the state. |
| ApiServer.BearerToken | src/test/java/dev/mayuna/discord/api/server/DiscordApiMock.java:60-67 | A token is present iff the Authorization header exists and starts with `Bearer `. The header is then `Bearer ` followed by the token. |
| ApiServer.HandleGetUser | src/test/java/dev/mayuna/discord/api/server/DiscordApiMock.java:58-76 | The user route answers 200 with the configured user iff the bearer token equals the configured one. A missing or non-bearer header gets `invalid_request` / "Missing or invalid Authorization header". Any other bearer token gets `invalid_token` / "Invalid access token". |
| ApiServer.Serve | src/test/java/dev/mayuna/discord/api/server/DiscordApiMock.java:54-56 | Only `GET /users/@me` is served. |
| ApiServer.AuthorizationHeaderNameIgnoresCase | src/test/java/dev/mayuna/discord/api/server/DiscordApiMock.java:60 | A lower-case `authorization` header is honoured like the canonical one. |
| ApiServer.OtherSchemeRejected | src/test/java/dev/mayuna/discord/api/server/DiscordApiMock.java:62-65 | A non-bearer scheme is refused as a missing header. |
| Scenarios.FetchGrantsTokens | src/test/java/dev/mayuna/discord/oauth/DiscordOAuthTest.java:61-75 | Exchanging the configured code against a matching server grants the new pair, and the server remembers it. |
| Scenarios.GrantedScopes | src/test/java/dev/mayuna/discord/oauth/DiscordOAuthTest.java:30 | A granted token lists the server's space-joined scopes back as the scopes. |
| Scenarios.WrongCodeRejected | src/test/java/dev/mayuna/discord/oauth/DiscordOAuthTest.java:98-109 | A wrong code gets the code error and changes nothing. |
| Scenarios.RejectedTokenHasOnlyError | src/test/java/dev/mayuna/discord/oauth/DiscordOAuthTest.java:102-108 | Under the assumed JSON binding (`BindAccessToken`, standing in for Gson), a token read from an error reply has its error set and no access token, type, lifetime, refresh token or scope. The library itself enforces nothing here. |
| Scenarios.RefreshGrantsTokens | src/test/java/dev/mayuna/discord/oauth/DiscordOAuthTest.java:77-89 | Refreshing with the last refresh token grants the next pair. |
| Scenarios.StaleRefreshTokenRejected | src/test/java/dev/mayuna/discord/oauth/server/DiscordOAuthServerMock.java:165-168 | Once a newer pair has been issued, the old refresh token is refused. |
| Scenarios.RevokeForgetsTokens | src/test/java/dev/mayuna/discord/oauth/DiscordOAuthTest.java:91-96 | Revoking the last access token succeeds and leaves no tokens remembered. |
| Scenarios.NoRefreshAfterRevoke | src/test/java/dev/mayuna/discord/oauth/server/DiscordOAuthServerMock.java:160-163 | After a revocation, a refresh with any token is refused. |
| Scenarios.NoSecondRevoke | src/test/java/dev/mayuna/discord/oauth/server/DiscordOAuthServerMock.java:234-237 | After a revocation, a second revocation is refused. |
| Scenarios.FetchUserAgainstServer | src/test/java/dev/mayuna/discord/api/DiscordApiTest.java:50-80 | `fetchUser` gets the configured user iff its token is the configured one. Otherwise it gets an error with a description. |

## Left out

- HTTP transport and asynchronous sending (`sendAsync`, the `ApiRequest`
  builder library, `WrappedApi`) belong to an external library. A request
  is the value that describes the call, and `MockServer.Transmit` hands
  its route, headers and body to a test server.
- JSON binding (Gson, `@SerializedName`) is outside the model. The
  scenarios read a reply into an entity by a direct field mapping.
- The clock (`System.currentTimeMillis`) is a parameter `now`.
  `fetchedAt` is a field set when the token is made.
- The Javalin runtime is outside the model: ports, `start`, `stop` and
  `getUrl`. A route is matched on the request's endpoint. An exception in a
  handler is `Crash`, which Javalin turns into an internal error, and an
  unknown route is `NoRoute`.
- Random token generation (`UUID.randomUUID`) is the `issued` parameter of
  the token server.
- Subclassing `DiscordOAuthAuthorizationUrlFactory` to override
  `createAuthorizationUrl` is not modelled. Only the base class's behaviour
  is.
- Lombok getters, `equals`, `hashCode` and `toString`, and the test
  helper `Utils`, are not modelled.
- Application.NewApplication: a null element inside the scopes array is
  not representable, because scopes are a sequence of strings.
  `String.join` would render such an element as `null`.
- JavaLong.ParseLong: accepts ASCII digits only. `Long.parseLong` also
  accepts other Unicode decimal digits.
- Entities.IsAccessTokenExpired: its contract states the mathematical
  comparison only when neither side overflows a `long`. Both bounds are
  needed, because `now - fetchedAt` wraps as well as the product. The body
  keeps Java's wrap-around. `Entities.HugeLifetimeReadsAsExpired` shows the
  product wrapping, and `Entities.ElapsedTimeWraps` shows that expiry is not
  monotone in the clock across the subtraction's wrap.

## Findings

| source | as written | input that shows it | evidently intended | confidence | as-written member | corrected member |
|---|---|---|---|---|---|---|
| src/main/java/dev/mayuna/discord/oauth/entities/DiscordAccessToken.java:34 | `expiresInSeconds * 1000` is a 64-bit product that wraps for lifetimes above 9223372036854775 s | `expiresInSeconds` = 9223372036854776 and the clock at `fetchedAt`: the product wraps negative, so the token reads as expired | a token with a non-negative lifetime is not expired when fetched | not executed; low impact, since Discord's lifetimes are far smaller | Entities.HugeLifetimeReadsAsExpired | Entities.IsAccessTokenExpiredExact |
