/** eve_sso/crest.py: the replies of the provider parsed into
    `TokenResponse` and `VerifyResponse`, and the three calls of
    `CrestTokenAPI` with the status codes each one turns into an exception.
    The provider is a function from the request sent to the reply received. */
module Crest {
  import opened Wrappers
  import opened Errors
  import opened Http
  import opened Text
  import opened AppSettings

  /** The namedtuple `TokenResponse`; `updated` and `expires` are seconds. */
  datatype TokenResponse = TokenResponse(tokenType: Value, accessToken: Value,
                                         refreshToken: Value, updated: int, expires: int)

  /** The namedtuple `VerifyResponse`. */
  datatype VerifyResponse = VerifyResponse(tokenType: Value, characterId: Value,
                                           characterName: Value, characterOwnerHash: Value,
                                           expiresOn: Value, scopes: set<string>)

  /** Python truthiness of the `TOKEN_VALID_DURATION` setting. */
  predicate CapSet(valid: Option<int>) {
    valid.Some? && valid.value != 0
  }

  /** `min(expires_in, valid) if valid else expires_in`: the lifetime the
      record gets, which a set cap can only shorten. */
  function Lifetime(expiresIn: int, valid: Option<int>): (d: int)
    ensures !CapSet(valid) ==> d == expiresIn
    ensures CapSet(valid) ==> d <= expiresIn && d <= valid.value
    ensures d == expiresIn || (CapSet(valid) && d == valid.value)
  {
    if CapSet(valid) then (if valid.value < expiresIn then valid.value else expiresIn)
    else expiresIn
  }

  /** `TokenResponse.from_json`: `expires_in` is read first and must be a
      number; `now` is the one clock reading, so `expires - updated` is the
      lifetime; the three other fields are copied as they are. */
  function TokenResponseFromJson(json: Json, valid: Option<int>, now: int): (r: Result<TokenResponse, Error>)
    ensures "expires_in" !in json ==> r == Failure(KeyError)
    ensures "expires_in" in json && !json["expires_in"].Int? ==> r == Failure(TypeError)
    ensures r.Success? <==>
      && "expires_in" in json && json["expires_in"].Int?
      && "token_type" in json && "access_token" in json && "refresh_token" in json
    ensures r.Success? ==>
      r.value == TokenResponse(json["token_type"], json["access_token"], json["refresh_token"],
                               now, now + Lifetime(json["expires_in"].i, valid))
    ensures r.Failure? ==> r.error == KeyError || r.error == TypeError
  {
    var e :- Lookup(json, "expires_in");
    if !e.Int? then Failure(TypeError)
    else
      var t :- Lookup(json, "token_type");
      var a :- Lookup(json, "access_token");
      var rt :- Lookup(json, "refresh_token");
      Success(TokenResponse(t, a, rt, now, now + Lifetime(e.i, valid)))
  }

  /** `frozenset(s.split())`. */
  function WordSet(s: string): set<string> {
    set w | w in Split(s)
  }

  /** The scope names of a verify reply: `json.get('Scopes', '').split()`
      made into a set. A present non-string value has no `split`. */
  function ScopeSet(json: Json): (r: Result<set<string>, Error>)
  {
    if "Scopes" !in json then Success({})
    else match json["Scopes"]
      case Str(s) => Success(WordSet(s))
      case _ => Failure(AttributeError)
  }

  /** `VerifyResponse.from_json`. */
  function VerifyResponseFromJson(json: Json): (r: Result<VerifyResponse, Error>)
    ensures r.Success? <==>
      && "TokenType" in json && "CharacterID" in json && "CharacterName" in json
      && "CharacterOwnerHash" in json && "ExpiresOn" in json && ScopeSet(json).Success?
    ensures r.Success? ==>
      r.value == VerifyResponse(json["TokenType"], json["CharacterID"], json["CharacterName"],
                                json["CharacterOwnerHash"], json["ExpiresOn"], ScopeSet(json).value)
  {
    var t :- Lookup(json, "TokenType");
    var id :- Lookup(json, "CharacterID");
    var name :- Lookup(json, "CharacterName");
    var hash :- Lookup(json, "CharacterOwnerHash");
    var exp :- Lookup(json, "ExpiresOn");
    var scopes :- ScopeSet(json);
    Success(VerifyResponse(t, id, name, hash, exp, scopes))
  }

  /** No `Scopes`, or only whitespace in it, means no scopes. */
  lemma {:induction false} ScopeSetEmpty(json: Json)
    ensures ScopeSet(json) == Success({}) <==>
      "Scopes" !in json || (json["Scopes"].Str? && AllSpace(json["Scopes"].s))
  {
    if "Scopes" in json && json["Scopes"].Str? {
      var s := json["Scopes"].s;
      SplitEmptyIff(s);
      assert ScopeSet(json) == Success(WordSet(s));
      if Split(s) != [] {
        assert Split(s)[0] in WordSet(s);
      } else {
        assert WordSet(s) == {};
      }
    }
  }

  /** The scopes are the words of `Scopes`, each once however often it
      occurs: a space-joined list of words gives back the set of its words. */
  lemma ScopeSetOfJoined(json: Json, words: seq<string>)
    requires AllWords(words)
    requires "Scopes" in json && json["Scopes"] == Str(Join(words))
    ensures ScopeSet(json) == Success(set w | w in words)
  {
    assert WordSet(Join(words)) == set w | w in Split(Join(words));
    SplitJoin(words);
  }

  /** A scope name never holds whitespace and is never empty. */
  lemma ScopeSetWords(json: Json, w: string)
    requires ScopeSet(json).Success? && w in ScopeSet(json).value
    ensures IsWord(w)
  {
    SplitWords(json["Scopes"].s);
  }

  /** The code-exchange POST: Basic `AUTH_TOKEN`, grant type and code. */
  function ExchangeRequest(s: Settings, code: string): Request {
    Request(Post, s.codeExchangeUrl, AuthToken(s),
            [("grant_type", s.codeExchangeGrantType), ("code", code)])
  }

  /** The verify GET: the access token as a Bearer credential. */
  function VerifyRequest(s: Settings, accessToken: string): Request {
    Request(Get, s.tokenVerifyUrl, "Bearer " + accessToken, [])
  }

  /** The refresh POST: Basic `AUTH_TOKEN`, grant type and refresh token. */
  function RefreshRequest(s: Settings, refreshToken: string): Request {
    Request(Post, s.tokenRefreshUrl, AuthToken(s),
            [("grant_type", s.tokenRefreshGrantType), ("refresh_token", refreshToken)])
  }

  /** `verify_authorization_code`. */
  function VerifyAuthorizationCode(s: Settings, provider: Request -> Reply, code: string, now: int)
    : (r: Result<TokenResponse, Error>)
  {
    var reply := provider(ExchangeRequest(s, code));
    if reply.status in {400, 401} then Failure(InvalidAuthentication)
    else if RaiseForStatus(reply.status).Fail? then Failure(RaiseForStatus(reply.status).error)
    else TokenResponseFromJson(reply.body, s.tokenValidDuration, now)
  }

  /** `verify_token`. */
  function VerifyToken(s: Settings, provider: Request -> Reply, accessToken: string)
    : (r: Result<VerifyResponse, Error>)
  {
    var reply := provider(VerifyRequest(s, accessToken));
    if reply.status in {400, 401, 403} then Failure(CrestTokenInvalid)
    else if RaiseForStatus(reply.status).Fail? then Failure(RaiseForStatus(reply.status).error)
    else VerifyResponseFromJson(reply.body)
  }

  /** `refresh_token`: 400 and 401 are tested before 403. */
  function RefreshToken(s: Settings, provider: Request -> Reply, refreshToken: string, now: int)
    : (r: Result<TokenResponse, Error>)
  {
    var reply := provider(RefreshRequest(s, refreshToken));
    if reply.status in {400, 401} then Failure(InvalidAuthentication)
    else if reply.status == 403 then Failure(CrestTokenInvalid)
    else if RaiseForStatus(reply.status).Fail? then Failure(RaiseForStatus(reply.status).error)
    else TokenResponseFromJson(reply.body, s.tokenValidDuration, now)
  }

  /** The failure of a call on a status the JSON body is never read for. */
  function StatusFailure(status: int, rejected: set<int>, rejection: Error): Error {
    if status in rejected then rejection else HttpError(status)
  }

  /** Exchange: 400 and 401 reject the code, any other 4xx or 5xx is an HTTP
      error, and on any other status the body is parsed. */
  lemma ExchangeStatus(s: Settings, provider: Request -> Reply, code: string, now: int)
    ensures var reply := provider(ExchangeRequest(s, code));
      var r := VerifyAuthorizationCode(s, provider, code, now);
      && (r == Failure(InvalidAuthentication) <==> reply.status in {400, 401})
      && (400 <= reply.status < 600 ==>
            r == Failure(StatusFailure(reply.status, {400, 401}, InvalidAuthentication)))
      && (!(400 <= reply.status < 600) ==>
            r == TokenResponseFromJson(reply.body, s.tokenValidDuration, now))
  {
  }

  /** Verify: 400, 401 and 403 mean the token is invalid. */
  lemma VerifyStatus(s: Settings, provider: Request -> Reply, accessToken: string)
    ensures var reply := provider(VerifyRequest(s, accessToken));
      var r := VerifyToken(s, provider, accessToken);
      && (r == Failure(CrestTokenInvalid) <==> reply.status in {400, 401, 403})
      && (400 <= reply.status < 600 ==>
            r == Failure(StatusFailure(reply.status, {400, 401, 403}, CrestTokenInvalid)))
      && (!(400 <= reply.status < 600) ==> r == VerifyResponseFromJson(reply.body))
  {
  }

  /** Refresh: 400 and 401 reject the application's credential, 403 only
      then means the token is invalid. */
  lemma RefreshStatus(s: Settings, provider: Request -> Reply, refreshToken: string, now: int)
    ensures var reply := provider(RefreshRequest(s, refreshToken));
      var r := RefreshToken(s, provider, refreshToken, now);
      && (r == Failure(InvalidAuthentication) <==> reply.status in {400, 401})
      && (r == Failure(CrestTokenInvalid) <==> reply.status == 403)
      && (400 <= reply.status < 600 && reply.status !in {400, 401, 403} ==>
            r == Failure(HttpError(reply.status)))
      && (!(400 <= reply.status < 600) ==>
            r == TokenResponseFromJson(reply.body, s.tokenValidDuration, now))
  {
  }

  /** Refreshing and verifying treat a status alike except 400 and 401,
      which refreshing blames on the application and verifying on the
      token; exchanging and refreshing treat every status alike except 403. */
  lemma StatusMappingsCompared(s: Settings, provider: Request -> Reply, code: string,
                               accessToken: string, refreshToken: string, now: int)
    requires provider(RefreshRequest(s, refreshToken)).status
          == provider(VerifyRequest(s, accessToken)).status
          == provider(ExchangeRequest(s, code)).status
    ensures var st := provider(RefreshRequest(s, refreshToken)).status;
      var rf := RefreshToken(s, provider, refreshToken, now);
      var vf := VerifyToken(s, provider, accessToken);
      var ex := VerifyAuthorizationCode(s, provider, code, now);
      && (400 <= st < 600 && st !in {400, 401} ==> rf.Failure? && vf.Failure? && rf.error == vf.error)
      && (st in {400, 401} ==> rf == Failure(InvalidAuthentication) && vf == Failure(CrestTokenInvalid))
      && (st != 403 && 400 <= st < 600 ==> rf == ex)
      && (st == 403 ==> rf == Failure(CrestTokenInvalid) && ex == Failure(HttpError(403)))
  {
  }
}
