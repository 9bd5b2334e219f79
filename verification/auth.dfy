/** The token provider and the two authorization headers: a Basic credential
    for the token endpoint (section 2 of RFC 7617) and a Bearer header for
    every other call. */
module Auth {
  import opened Wrappers
  import opened Bytes
  import opened Errors
  import Utf8
  import Base64

  const TokenUrl := "https://accounts.spotify.com/api/token"
  const FormContentType := "application/x-www-form-urlencoded"
  const BasicPrefix := "Basic "
  const BearerPrefix := "Bearer "

  /** The configuration values the token exchange reads. */
  datatype Config = Config(clientId: string, clientSecret: string, refreshToken: string)

  /** The form POST sent to the token endpoint. */
  datatype TokenRequest = TokenRequest(
    url: string,
    authorization: string,
    contentType: string,
    grantType: string,
    refreshToken: string,
    clientId: string)

  /** The `access_token` member of the endpoint's JSON reply. */
  datatype TokenField = Absent | Null | Text(token: string)

  datatype TokenResponse = TokenResponse(accessToken: TokenField)

  /** The user-pass of RFC 7617: client id, a colon, client secret. */
  function UserPass(clientId: string, clientSecret: string): string {
    clientId + ":" + clientSecret
  }

  /** `Basic ` followed by the Base64 of the UTF-8 octets of the user-pass. */
  function BasicAuthorization(clientId: string, clientSecret: string): (h: string)
    ensures |h| >= |BasicPrefix| && h[..|BasicPrefix|] == BasicPrefix
    ensures forall i :: |BasicPrefix| <= i < |h| ==> Base64.InAlphabet(h[i]) || h[i] == '='
  {
    BasicPrefix + Base64.Encode(Utf8.Encode(UserPass(clientId, clientSecret)))
  }

  /** The credential part of a Basic header, decoded back to text. */
  function DecodeBasic(h: string): Option<string> {
    if |h| < |BasicPrefix| || h[..|BasicPrefix|] != BasicPrefix then None
    else
      match Base64.Decode(h[|BasicPrefix|..])
      case None => None
      case Some(octets) => Utf8.Decode(octets)
  }

  /** Splits a user-pass at its first colon. */
  function SplitUserPass(s: string): (r: Option<(string, string)>)
    ensures r.Some? ==> ':' !in r.value.0 && UserPass(r.value.0, r.value.1) == s
    ensures r.None? <==> ':' !in s
  {
    if |s| == 0 then None
    else if s[0] == ':' then Some(("", s[1..]))
    else
      match SplitUserPass(s[1..])
      case None => None
      case Some((id, secret)) => Some(([s[0]] + id, secret))
  }

  /** The Basic header carries exactly the configured user-pass. */
  lemma DecodeBasicAuthorization(clientId: string, clientSecret: string)
    ensures DecodeBasic(BasicAuthorization(clientId, clientSecret)) == Some(UserPass(clientId, clientSecret))
  {
    var up := UserPass(clientId, clientSecret);
    var h := BasicAuthorization(clientId, clientSecret);
    assert h[|BasicPrefix|..] == Base64.Encode(Utf8.Encode(up));
    Base64.DecodeEncode(Utf8.Encode(up));
    Utf8.DecodeEncode(up);
  }

  /** Since RFC 7617 forbids a colon in the user-id, a server that splits the
      decoded credential at its first colon recovers both configured values. */
  lemma {:induction false} SplitUserPassRoundTrip(clientId: string, clientSecret: string)
    requires ':' !in clientId
    ensures SplitUserPass(UserPass(clientId, clientSecret)) == Some((clientId, clientSecret))
  {
    if |clientId| > 0 {
      SplitUserPassRoundTrip(clientId[1..], clientSecret);
      assert UserPass(clientId, clientSecret)[1..] == UserPass(clientId[1..], clientSecret);
      assert [clientId[0]] + clientId[1..] == clientId;
    } else {
      assert UserPass(clientId, clientSecret)[1..] == clientSecret;
    }
  }

  /** The header every API call after the token exchange carries. */
  function BearerAuthorization(accessToken: string): (h: string)
    ensures |h| == |BearerPrefix| + |accessToken|
    ensures h[..|BearerPrefix|] == BearerPrefix
    ensures h[|BearerPrefix|..] == accessToken
  {
    BearerPrefix + accessToken
  }

  /** The token a Bearer header carries, if it is one. */
  function BearerToken(h: string): Option<string> {
    if |h| >= |BearerPrefix| && h[..|BearerPrefix|] == BearerPrefix then Some(h[|BearerPrefix|..]) else None
  }

  lemma BearerTokenRoundTrip(accessToken: string)
    ensures BearerToken(BearerAuthorization(accessToken)) == Some(accessToken)
    ensures forall t :: BearerAuthorization(t) == BearerAuthorization(accessToken) ==> t == accessToken
  {
  }

  /** The refresh-token grant, authenticated with the client's Basic credential. */
  function TokenRequestFor(config: Config): (r: TokenRequest)
    ensures r.url == TokenUrl && r.contentType == FormContentType
    ensures r.grantType == "refresh_token"
    ensures r.refreshToken == config.refreshToken && r.clientId == config.clientId
    ensures DecodeBasic(r.authorization) == Some(UserPass(config.clientId, config.clientSecret))
  {
    DecodeBasicAuthorization(config.clientId, config.clientSecret);
    TokenRequest(TokenUrl, BasicAuthorization(config.clientId, config.clientSecret),
                 FormContentType, "refresh_token", config.refreshToken, config.clientId)
  }

  /** Reads the access token out of the endpoint's reply: a missing member is a
      `KeyError`, a null or empty one the job's own `RuntimeError`. */
  function AccessToken(response: TokenResponse): (r: Result<string, Fatal>)
    ensures r.Success? <==> response.accessToken.Text? && |response.accessToken.token| > 0
    ensures r.Success? ==> r.value == response.accessToken.token
    ensures response.accessToken.Absent? ==> r == Failure(KeyError("access_token"))
    ensures r.Failure? && !response.accessToken.Absent? ==> r.error.RuntimeError?
  {
    match response.accessToken
    case Absent => Failure(KeyError("access_token"))
    case Null => Failure(RuntimeError("Failed to retrieve the access token"))
    case Text(t) =>
      if |t| == 0 then Failure(RuntimeError("Failed to retrieve the access token")) else Success(t)
  }
}
