/** The `EVE_SSO_*` settings object of eve_sso/app_settings.py: the required
    values, the defaults the others take, and the HTTP Basic credential
    `AUTH_TOKEN` built from the client id and secret. */
module AppSettings {
  import opened Wrappers
  import opened Identity
  import Utf8
  import Base64

  datatype Settings = Settings(
    clientId: string,
    clientSecret: string,
    callbackUrl: string,
    loginScopes: seq<string>,
    authCreateUnknownUser: bool,
    authUserFromTokenFunc: Option<UserFunc>,
    authFindUserFunc: Option<UserFunc>,
    redirectFieldName: string,
    loginUrl: string,
    codeExchangeUrl: string,
    codeExchangeGrantType: string,
    tokenRefreshUrl: string,
    tokenRefreshGrantType: string,
    tokenVerifyUrl: string,
    purgeTokensOnAccountChange: bool,
    tokenValidDuration: Option<int>)

  /** Django's `REDIRECT_FIELD_NAME`. */
  const DjangoRedirectFieldName: string := "next"

  /** The settings object when only the three required values are given:
      every other value is its default. */
  function WithDefaults(clientId: string, clientSecret: string, callbackUrl: string): (s: Settings)
    ensures s.clientId == clientId && s.clientSecret == clientSecret && s.callbackUrl == callbackUrl
    ensures s.loginScopes == [] && s.authCreateUnknownUser
    ensures s.authUserFromTokenFunc.None? && s.authFindUserFunc.None?
    ensures s.redirectFieldName == DjangoRedirectFieldName
    ensures s.loginUrl == "https://login.eveonline.com/oauth/authorize/"
    ensures s.codeExchangeUrl == "https://login.eveonline.com/oauth/token"
    ensures s.codeExchangeGrantType == "authorization_code"
    ensures s.tokenRefreshUrl == s.codeExchangeUrl
    ensures s.tokenRefreshGrantType == "refresh_token"
    ensures s.tokenVerifyUrl == "https://login.eveonline.com/oauth/verify"
    ensures s.purgeTokensOnAccountChange && s.tokenValidDuration.None?
  {
    Settings(clientId, clientSecret, callbackUrl, [], true, None, None, DjangoRedirectFieldName,
             "https://login.eveonline.com/oauth/authorize/",
             "https://login.eveonline.com/oauth/token", "authorization_code",
             "https://login.eveonline.com/oauth/token", "refresh_token",
             "https://login.eveonline.com/oauth/verify", true, None)
  }

  /** The user-pass of section 2 of RFC 7617: `CLIENT_ID:CLIENT_SECRET`. */
  function UserPass(s: Settings): string {
    s.clientId + ":" + s.clientSecret
  }

  /** `AUTH_TOKEN`: `"Basic "` followed by the base64 encoding (section 4 of
      RFC 4648) of the UTF-8 bytes of `CLIENT_ID:CLIENT_SECRET`. */
  function AuthToken(s: Settings): string {
    "Basic " + Base64.Encode(Utf8.Encode(UserPass(s)))
  }

  /** The credential carries the id and the secret: decoding the part after
      `"Basic "` gives back `CLIENT_ID:CLIENT_SECRET`. */
  lemma AuthTokenDecodes(s: Settings)
    ensures |AuthToken(s)| >= 6 && AuthToken(s)[..6] == "Basic "
    ensures Base64.Decode(AuthToken(s)[6..]) == Some(Utf8.Encode(UserPass(s)))
    ensures Utf8.Decode(Base64.Decode(AuthToken(s)[6..]).value) == Some(UserPass(s))
  {
    var body := Base64.Encode(Utf8.Encode(UserPass(s)));
    assert AuthToken(s)[6..] == body;
    Base64.DecodeEncode(Utf8.Encode(UserPass(s)));
    Utf8.DecodeEncode(UserPass(s));
  }

  /** The encoded part has `4 * ceil(n / 3)` characters for an n-byte
      `CLIENT_ID:CLIENT_SECRET`, all from the base64 alphabet or `=`
      padding at the end. */
  lemma AuthTokenShape(s: Settings)
    ensures |AuthToken(s)| == 6 + 4 * ((|Utf8.Encode(UserPass(s))| + 2) / 3)
    ensures Base64.IsEncoding(AuthToken(s)[6..])
  {
    var body := Base64.Encode(Utf8.Encode(UserPass(s)));
    assert AuthToken(s)[6..] == body;
    Base64.EncodeLength(Utf8.Encode(UserPass(s)));
    Base64.EncodeAlphabet(Utf8.Encode(UserPass(s)));
  }

  /** Different credentials give different `AUTH_TOKEN`s. */
  lemma AuthTokenInjective(s: Settings, t: Settings)
    requires AuthToken(s) == AuthToken(t)
    ensures UserPass(s) == UserPass(t)
  {
    AuthTokenDecodes(s);
    AuthTokenDecodes(t);
  }
}
