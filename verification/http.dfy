/**
 The request descriptor both API clients build. Sending it is the business
 of an HTTP library outside this model; here a request is only the value
 that names where it goes, how, with which headers and with which body.
 */
module Http {
  import opened JavaBasics
  import opened JavaStrings

  datatype RequestMethod = GET | POST

  datatype Header = Header(name: string, value: string)

  /** The entity a response body is deserialized into. */
  datatype ResponseKind =
    | AccessTokenKind   // DiscordAccessToken
    | UserKind          // DiscordUser
    | PlainResponseKind // DiscordApiResponse: only the error fields

  /** A built API request. `baseUrl` and `defaultHeaders` come from the client
      that built it (its `getDefaultUrl` and `getDefaultRequestHeaders`); the
      other fields from the call. */
  datatype ApiRequest = ApiRequest(
    baseUrl: string,
    defaultHeaders: seq<Header>,
    verb: RequestMethod,
    endpoint: string,
    headers: seq<Header>,
    body: Option<string>,
    expects: ResponseKind)

  const FormContentType: string := "application/x-www-form-urlencoded"

  /** The one default header of both clients. */
  const UserAgentHeader: Header := Header("User-Agent", "Java-Discord-OAuth2 (dev.mayuna, 1.0)")

  /** Looking up the default header list finds the User-Agent under its own
      name and nothing under any other. */
  lemma UserAgentIsTheOnlyHeader()
    ensures HeaderValue([UserAgentHeader], "User-Agent") == Some("Java-Discord-OAuth2 (dev.mayuna, 1.0)")
    ensures forall name :: !EqualsIgnoreCase("User-Agent", name) ==> HeaderValue([UserAgentHeader], name).None?
  {
    assert EqualsIgnoreCase(UserAgentHeader.name, "User-Agent");
  }

  function ContentTypeHeader(mediaType: string): Header
  {
    Header("Content-Type", mediaType)
  }

  /** The value of the first header whose name equals `name` up to ASCII case,
      which is what a servlet container's `getHeader` answers; `None` stands for
      its null. */
  function HeaderValue(hs: seq<Header>, name: string): (r: Option<string>)
    ensures r.None? <==> forall i :: 0 <= i < |hs| ==> !EqualsIgnoreCase(hs[i].name, name)
    ensures r.Some? ==>
      exists i :: 0 <= i < |hs| && EqualsIgnoreCase(hs[i].name, name) && hs[i].value == r.value
        && forall j :: 0 <= j < i ==> !EqualsIgnoreCase(hs[j].name, name)
    decreases |hs|
  {
    if |hs| == 0 then None
    else if EqualsIgnoreCase(hs[0].name, name) then Some(hs[0].value)
    else
      var r := HeaderValue(hs[1..], name);
      assert forall i :: 1 <= i < |hs| ==> hs[i] == hs[1..][i - 1];
      r
  }

  /** A header list that leads with headers of other names answers the lookup
      from the rest of the list. */
  lemma {:induction false} HeaderValueSkips(front: seq<Header>, back: seq<Header>, name: string)
    requires forall i :: 0 <= i < |front| ==> !EqualsIgnoreCase(front[i].name, name)
    ensures HeaderValue(front + back, name) == HeaderValue(back, name)
    decreases |front|
  {
    if |front| > 0 {
      assert (front + back)[1..] == front[1..] + back;
      HeaderValueSkips(front[1..], back, name);
    } else {
      assert front + back == back;
    }
  }
}
