/**
 The two response entities with derived state: the user profile (whose id
 is a decimal string readable as a `long`) and the access token (whose
 expiry and scope list are computed from its fields). Every entity also
 carries the `error` and `error_description` fields of `DiscordApiResponse`;
 a null field is `None`.
 */
module Entities {
  import opened JavaBasics
  import opened JavaStrings
  import opened JavaLong

  datatype DiscordUser = DiscordUser(
    id: Option<string>,
    username: Option<string>,
    discriminator: Option<string>,
    globalName: Option<string>,
    avatarHash: Option<string>,
    bot: Option<bool>,
    system: Option<bool>,
    mfaEnabled: Option<bool>,
    accentColor: Option<int>,
    locale: Option<string>,
    verified: Option<bool>,
    email: Option<string>,
    flags: Option<int>,
    premiumType: Option<int>,
    publicFlags: Option<int>,
    avatarDecorationHash: Option<string>,
    error: Option<string>,
    errorDescription: Option<string>)

  /** `getIdAsLong()`: `Long.parseLong(id)`. A null id throws the same
      `NumberFormatException` as a malformed or out-of-range one; `None` stands
      for it. */
  function IdAsLong(u: DiscordUser): (r: Option<int>)
    ensures r.Some? ==> MinLong <= r.value <= MaxLong
    ensures r.Some? <==>
      u.id.Some? && IsLongLiteral(u.id.value) && MinLong <= LiteralValue(u.id.value) <= MaxLong
    ensures r.Some? ==> r.value == LiteralValue(u.id.value)
  {
    match u.id
    case None => None
    case Some(s) => ParseLong(s)
  }

  /** A Discord snowflake, written in decimal, reads back as itself. */
  lemma IdAsLongOfDecimal(u: DiscordUser, n: nat)
    requires n <= MaxLong
    requires u.id == Some(DecimalString(n))
    ensures IdAsLong(u) == Some(n)
  {
    ParseDecimalString(n);
  }

  // ---------------------------------------------------------------------
  // Access token

  /** `fetchedAt` is the clock reading taken when the object was created,
      passed in here rather than read from a clock. */
  datatype DiscordAccessToken = DiscordAccessToken(
    fetchedAt: Long,
    accessToken: Option<string>,
    tokenType: Option<string>,
    expiresInSeconds: Long,
    refreshToken: Option<string>,
    scope: Option<string>,
    error: Option<string>,
    errorDescription: Option<string>)

  /** Neither the elapsed time nor the lifetime in milliseconds leaves the
      `long` range, so Java's arithmetic is exact. Both bounds matter: the
      subtraction `now - fetchedAt` wraps as well as the product, see
      `ElapsedTimeWraps`. */
  predicate ExactArithmetic(t: DiscordAccessToken, now: Long)
  {
    MinLong <= now - t.fetchedAt <= MaxLong
      && MinLong <= t.expiresInSeconds * 1000 <= MaxLong
  }

  /** `isAccessTokenExpired()` with the clock reading passed in as `now`:
      `now - fetchedAt > expiresInSeconds * 1000`, both sides in 64-bit
      arithmetic. */
  function IsAccessTokenExpired(t: DiscordAccessToken, now: Long): (expired: bool)
    ensures ExactArithmetic(t, now) ==>
      (expired <==> now - t.fetchedAt > t.expiresInSeconds * 1000)
  {
    Wrap(now - t.fetchedAt) > Wrap(t.expiresInSeconds * 1000)
  }

  /** The comparison is strict: at exactly the lifetime the token is still valid. */
  lemma NotExpiredAtBoundary(t: DiscordAccessToken, now: Long)
    requires ExactArithmetic(t, now)
    requires now - t.fetchedAt == t.expiresInSeconds * 1000
    ensures !IsAccessTokenExpired(t, now)
  {
  }

  /** Once expired, a token stays expired as the clock moves on, as long as
      the elapsed time stays in the `long` range; `ElapsedTimeWraps` shows a
      clock step across the wrap that undoes the expiry. */
  lemma ExpiryIsMonotone(t: DiscordAccessToken, now: Long, later: Long)
    requires ExactArithmetic(t, now) && ExactArithmetic(t, later)
    requires now <= later
    requires IsAccessTokenExpired(t, now)
    ensures IsAccessTokenExpired(t, later)
  {
  }

  /** A token with a non-negative lifetime is not expired when it is fetched. */
  lemma FreshTokenNotExpired(t: DiscordAccessToken)
    requires 0 <= t.expiresInSeconds * 1000 <= MaxLong
    ensures !IsAccessTokenExpired(t, t.fetchedAt)
  {
  }

  /** With a one-second lifetime, a token fetched 1001 ms ago is expired and one
      stamped 1001 ms in the future is not. */
  lemma OneSecondLifetime(t: DiscordAccessToken, now: Long)
    requires t.expiresInSeconds == 1
    requires MinLong + 1001 <= now <= MaxLong - 1001
    ensures t.fetchedAt == now - 1001 ==> IsAccessTokenExpired(t, now)
    ensures t.fetchedAt == now + 1001 ==> !IsAccessTokenExpired(t, now)
  {
  }

  /** The elapsed time wraps too: a token stamped at `Long.MIN_VALUE` with no
      lifetime is expired one millisecond before zero and, once the
      subtraction wraps, no longer expired at zero. */
  lemma ElapsedTimeWraps(t: DiscordAccessToken)
    requires t.fetchedAt == MinLong && t.expiresInSeconds == 0
    ensures IsAccessTokenExpired(t, -1)
    ensures !IsAccessTokenExpired(t, 0)
  {
    assert Wrap(-1 - MinLong) == MaxLong;
    assert Wrap(0 - MinLong) == MinLong;
    assert Wrap(0) == 0;
  }

  /** The product `expiresInSeconds * 1000` wraps for lifetimes above
      `Long.MAX_VALUE / 1000` seconds; the smallest such lifetime makes a
      token read as expired at the very moment it is fetched. */
  lemma HugeLifetimeReadsAsExpired(t: DiscordAccessToken)
    requires t.expiresInSeconds == MaxLong / 1000 + 1
    ensures IsAccessTokenExpired(t, t.fetchedAt)
  {
    assert Wrap(t.expiresInSeconds * 1000) == t.expiresInSeconds * 1000 - 0x1_0000_0000_0000_0000;
    assert Wrap(0) == 0;
  }

  /** Expiry as the method means it: the elapsed milliseconds exceed the
      lifetime in milliseconds, compared without a 64-bit product. */
  function IsAccessTokenExpiredExact(t: DiscordAccessToken, now: Long): (expired: bool)
    ensures ExactArithmetic(t, now) ==> (expired <==> IsAccessTokenExpired(t, now))
  {
    now - t.fetchedAt > t.expiresInSeconds * 1000
  }

  /** Without the wrap, a token with a non-negative lifetime is never expired
      when fetched, whatever the lifetime. */
  lemma ExactFreshTokenNotExpired(t: DiscordAccessToken)
    requires t.expiresInSeconds >= 0
    ensures !IsAccessTokenExpiredExact(t, t.fetchedAt)
  {
  }

  /** Without the wrap, expiry is monotone in the clock for every token. */
  lemma ExactExpiryIsMonotone(t: DiscordAccessToken, now: Long, later: Long)
    requires now <= later
    requires IsAccessTokenExpiredExact(t, now)
    ensures IsAccessTokenExpiredExact(t, later)
  {
  }

  /** `getScopes()`: the scope string split on single spaces, and an empty
      list (never null) when the scope is null or empty. */
  function GetScopes(t: DiscordAccessToken): (scopes: seq<string>)
    ensures t.scope.None? ==> scopes == []
    ensures t.scope == Some("") ==> scopes == []
    ensures forall i :: 0 <= i < |scopes| ==> ' ' !in scopes[i]
    ensures t.scope.Some? && t.scope.value != "" && ' ' !in t.scope.value ==> scopes == [t.scope.value]
  {
    if t.scope.None? || t.scope.value == "" then [] else Split(t.scope.value, ' ')
  }

  /** The scope string Discord returns is the granted scopes joined by single
      spaces; splitting it gives the list back. Java's split drops trailing
      empty pieces, so the last scope must not be empty. */
  lemma ScopesOfJoin(t: DiscordAccessToken, scopes: seq<string>)
    requires |scopes| >= 1
    requires forall i :: 0 <= i < |scopes| ==> ' ' !in scopes[i]
    requires scopes[|scopes| - 1] != ""
    requires t.scope == Some(Join(scopes, " "))
    ensures GetScopes(t) == scopes
  {
    if |scopes| > 1 {
      JoinCons(scopes[0], scopes[1..], " ");
      assert |t.scope.value| > |scopes[0]|;
    }
    SplitOfJoin(scopes, ' ');
  }

  lemma ScopesExamples(t: DiscordAccessToken)
    ensures t.scope == Some("identify guilds") ==> GetScopes(t) == ["identify", "guilds"]
    ensures t.scope == Some("identify") ==> GetScopes(t) == ["identify"]
  {
    if t.scope == Some("identify guilds") {
      assert Join(["identify", "guilds"], " ") == "identify guilds" by {
        JoinCons("identify", ["guilds"], " ");
      }
      ScopesOfJoin(t, ["identify", "guilds"]);
    }
  }
}
