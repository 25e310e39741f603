/** eve_sso/models.py: the access-token record with its expiry and refresh
    behaviour, the pending-login record `CallbackRedirect` with its salted
    hash, the callback code record and the HTTP Basic credential. */
module Models {
  import opened Wrappers
  import opened Errors
  import opened Bytes
  import opened Http
  import opened Text
  import opened Identity
  import Utf8
  import Hex
  import Base64
  import AppSettings

  /** `EVE_SSO_CLIENT_ID`, `EVE_SSO_CLIENT_SECRET` and
      `EVE_SSO_TOKEN_VALID_DURATION` (in seconds) as models.py imports them. */
  datatype Config = Config(clientId: string, clientSecret: string, tokenValidDuration: int)

  const TokenRefreshUrl: string := "https://login.eveonline.com/oauth/token"
  const TokenRefreshGrantType: string := "refresh_token"

  /** `generate_auth_string`: an HTTP Basic credential (section 2 of
      RFC 7617) for `client_id:client_secret`. */
  function GenerateAuthString(clientId: string, clientSecret: string): string {
    "Basic " + Base64.Encode(Utf8.Encode(clientId + ":" + clientSecret))
  }

  /** `generate_auth_string` and the `AUTH_TOKEN` setting agree. */
  lemma AuthStringIsAuthToken(s: AppSettings.Settings)
    ensures GenerateAuthString(s.clientId, s.clientSecret) == AppSettings.AuthToken(s)
  {
  }

  /** `can_refresh`: a refresh token that is neither `None` nor empty. */
  predicate CanRefresh(refreshToken: Option<string>) {
    Truthy(refreshToken)
  }

  /** `expired`: the record is fresh only while `created + duration` lies
      strictly after `now`. */
  predicate Expired(created: int, duration: int, now: int) {
    !(created + duration > now)
  }

  /** The POST of `refresh()`: Basic credential, grant type and refresh token
      as query parameters. */
  function RefreshRequest(config: Config, refreshToken: string): Request {
    Request(Post, TokenRefreshUrl, GenerateAuthString(config.clientId, config.clientSecret),
            [("grant_type", TokenRefreshGrantType), ("refresh_token", refreshToken)])
  }

  /** What `refresh()` sends: nothing without a refresh token. */
  function RefreshSent(config: Config, refreshToken: Option<string>): seq<Request> {
    if CanRefresh(refreshToken) then [RefreshRequest(config, refreshToken.value)] else []
  }

  /** What `refresh()` ends in: the new access token, or the exception. */
  function RefreshResult(config: Config, provider: Request -> Reply, refreshToken: Option<string>)
    : Result<Value, Error>
  {
    if !CanRefresh(refreshToken) then Failure(NotRefreshable)
    else
      var reply := provider(RefreshRequest(config, refreshToken.value));
      if reply.status in {400, 403} then Failure(TokenInvalid)
      else if RaiseForStatus(reply.status).Fail? then Failure(HttpError(reply.status))
      else Lookup(reply.body, "access_token")
  }

  /** Without a refresh token, `refresh()` raises `NotRefreshableTokenError`
      and contacts nobody. */
  lemma RefreshWithoutRefreshToken(config: Config, provider: Request -> Reply, refreshToken: Option<string>)
    requires !CanRefresh(refreshToken)
    ensures RefreshResult(config, provider, refreshToken) == Failure(NotRefreshable)
    ensures RefreshSent(config, refreshToken) == []
  {
  }

  /** `refresh()` succeeds exactly when there is a refresh token, the reply
      is neither 400 nor 403 nor any other 4xx or 5xx, and it carries an
      `access_token`, which becomes the record's. */
  lemma RefreshSuccess(config: Config, provider: Request -> Reply, refreshToken: Option<string>)
    ensures var res := RefreshResult(config, provider, refreshToken);
      res.Success? <==>
        && CanRefresh(refreshToken)
        && var reply := provider(RefreshRequest(config, refreshToken.value));
        && !(400 <= reply.status < 600)
        && "access_token" in reply.body
    ensures var res := RefreshResult(config, provider, refreshToken);
      res.Success? ==> res.value == provider(RefreshRequest(config, refreshToken.value)).body["access_token"]
  {
  }

  /** The failures of `refresh()` that `except TokenError` catches are
      exactly a missing refresh token and a 400 or 403 reply. */
  lemma RefreshTokenErrors(config: Config, provider: Request -> Reply, refreshToken: Option<string>)
    ensures var res := RefreshResult(config, provider, refreshToken);
      (res.Failure? && IsTokenError(res.error)) <==>
        (!CanRefresh(refreshToken)
         || provider(RefreshRequest(config, refreshToken.value)).status in {400, 403})
    ensures var res := RefreshResult(config, provider, refreshToken);
      res.Failure? ==> res.error in {NotRefreshable, TokenInvalid, KeyError}
                       || (res.error.HttpError? && 400 <= res.error.status < 600)
  {
  }

  /** A refresh that got as far as reading the reply body: `created` has
      been set by then, whether or not `access_token` is present. */
  predicate StampsClock(res: Result<Value, Error>) {
    res.Success? || res == Failure(KeyError)
  }

  class AccessToken {
    const refreshToken: Option<string>
    const characterId: int
    const characterName: string
    const tokenType: string
    const ownerHash: string
    var created: int
    /** The access token as the record holds it: a JSON value when it comes
        from a refresh reply. */
    var accessToken: Value
    var owner: Option<UserId>
    /** The names of the granted scopes. */
    var scopes: set<string>

    constructor (refreshToken: Option<string>, characterId: int, characterName: string,
                 tokenType: string, ownerHash: string, created: int, accessToken: Value,
                 owner: Option<UserId>)
      ensures this.refreshToken == refreshToken && this.characterId == characterId
      ensures this.characterName == characterName && this.tokenType == tokenType
      ensures this.ownerHash == ownerHash && this.created == created
      ensures this.accessToken == accessToken && this.owner == owner && scopes == {}
    {
      this.refreshToken := refreshToken;
      this.characterId := characterId;
      this.characterName := characterName;
      this.tokenType := tokenType;
      this.ownerHash := ownerHash;
      this.created := created;
      this.accessToken := accessToken;
      this.owner := owner;
      scopes := {};
    }

    function Info(): TokenInfo
      reads this
    {
      TokenInfo(characterId, characterName, ownerHash, owner)
    }

    predicate IsExpired(config: Config, now: int)
      reads this
    {
      Expired(created, config.tokenValidDuration, now)
    }

    /** The record after `refresh()`: the new access token on success;
        `created` stamped once the status checks passed; nothing else. */
    twostate predicate RefreshedAs(config: Config, provider: Request -> Reply, now: int)
      reads this
    {
      var res := RefreshResult(config, provider, refreshToken);
      && owner == old(owner) && scopes == old(scopes)
      && accessToken == (if res.Success? then res.value else old(accessToken))
      && created == (if StampsClock(res) then now else old(created))
    }

    /** `refresh()`. */
    method Refresh(config: Config, provider: Request -> Reply, now: int)
      returns (r: Outcome<Error>, sent: seq<Request>)
      modifies this
      ensures sent == RefreshSent(config, refreshToken)
      ensures var res := RefreshResult(config, provider, refreshToken);
        r == (if res.Success? then Pass else Fail(res.error))
      ensures RefreshedAs(config, provider, now)
    {
      if !CanRefresh(refreshToken) {
        return Fail(NotRefreshable), [];
      }
      var request := RefreshRequest(config, refreshToken.value);
      sent := [request];
      var reply := provider(request);
      if reply.status in {400, 403} {
        return Fail(TokenInvalid), sent;
      }
      var check := RaiseForStatus(reply.status);
      if check.Fail? {
        return Fail(check.error), sent;
      }
      created := now;
      var newToken := Lookup(reply.body, "access_token");
      if newToken.Failure? {
        return Fail(newToken.error), sent;
      }
      accessToken := newToken.value;
      r := Pass;
    }

    /** The `token` property: the stored token while fresh; once expired,
        `TokenExpiredError` without a refresh token, otherwise the outcome
        of `refresh()`. */
    method Token(config: Config, provider: Request -> Reply, now: int)
      returns (r: Result<Value, Error>, sent: seq<Request>)
      modifies this
      ensures !old(IsExpired(config, now)) ==>
        r == Success(old(accessToken)) && sent == [] && unchanged(this)
      ensures old(IsExpired(config, now)) && !CanRefresh(refreshToken) ==>
        r == Failure(TokenExpired) && sent == [] && unchanged(this)
      ensures old(IsExpired(config, now)) && CanRefresh(refreshToken) ==>
        && r == RefreshResult(config, provider, refreshToken)
        && sent == RefreshSent(config, refreshToken)
        && RefreshedAs(config, provider, now)
    {
      sent := [];
      if IsExpired(config, now) {
        if CanRefresh(refreshToken) {
          var outcome;
          outcome, sent := Refresh(config, provider, now);
          if outcome.Fail? {
            return Failure(outcome.error), sent;
          }
        } else {
          return Failure(TokenExpired), sent;
        }
      }
      r := Success(accessToken);
    }

    /** The scope loop of `CallbackCode.exchange`: each word of `Scopes` is
        looked up among the known scopes and added; an unknown name raises
        `DoesNotExist`, and the scopes added before it stay added. */
    method AttachScopes(json: Json, known: set<string>) returns (r: Outcome<Error>)
      modifies this
      ensures created == old(created) && accessToken == old(accessToken) && owner == old(owner)
      ensures "Scopes" !in json ==> r == Pass && scopes == old(scopes)
      ensures "Scopes" in json && !json["Scopes"].Str? ==>
        r == Fail(AttributeError) && scopes == old(scopes)
      ensures "Scopes" in json && json["Scopes"].Str? ==>
        var words := Split(json["Scopes"].s);
        var k := FirstUnknown(words, known);
        && scopes == old(scopes) + PrefixSet(words, k)
        && r == (if k == |words| then Pass else Fail(ScopeDoesNotExist(words[k])))
    {
      if "Scopes" !in json {
        return Pass;
      }
      if !json["Scopes"].Str? {
        return Fail(AttributeError);
      }
      var words := Split(json["Scopes"].s);
      var i := 0;
      while i < |words|
        invariant 0 <= i <= |words|
        invariant forall j :: 0 <= j < i ==> words[j] in known
        invariant scopes == old(scopes) + PrefixSet(words, i)
        invariant created == old(created) && accessToken == old(accessToken) && owner == old(owner)
      {
        if words[i] !in known {
          FirstUnknownAt(words, known, i);
          return Fail(ScopeDoesNotExist(words[i]));
        }
        PrefixSetStep(words, i);
        scopes := scopes + {words[i]};
        i := i + 1;
      }
      FirstUnknownAt(words, known, |words|);
      r := Pass;
    }
  }

  /** Every field of an `AccessToken` that can change in place. */
  datatype Snapshot = Snapshot(created: int, accessToken: Value, owner: Option<UserId>, scopes: set<string>)

  function Snap(t: AccessToken): Snapshot
    reads t
  {
    Snapshot(t.created, t.accessToken, t.owner, t.scopes)
  }

  /** The words among the first `k` of `words`. */
  function PrefixSet(words: seq<string>, k: nat): set<string>
    requires k <= |words|
  {
    set w | w in words[..k]
  }

  lemma PrefixSetStep(words: seq<string>, i: nat)
    requires i < |words|
    ensures PrefixSet(words, i + 1) == PrefixSet(words, i) + {words[i]}
  {
    assert words[..i + 1] == words[..i] + [words[i]];
  }

  /** The position of the first word that is not a known scope name, or the
      number of words when all are known. */
  function FirstUnknown(words: seq<string>, known: set<string>): (k: nat)
    ensures k <= |words|
    ensures forall j :: 0 <= j < k ==> words[j] in known
    ensures k < |words| ==> words[k] !in known
    decreases |words|
  {
    if words == [] then 0
    else if words[0] !in known then 0
    else 1 + FirstUnknown(words[1..], known)
  }

  /** The first unknown word is the one a left-to-right scan stops at. */
  lemma FirstUnknownAt(words: seq<string>, known: set<string>, i: nat)
    requires i <= |words|
    requires forall j :: 0 <= j < i ==> words[j] in known
    requires i < |words| ==> words[i] !in known
    ensures FirstUnknown(words, known) == i
  {
  }

  /** The scope loop completes exactly when every word names a known scope,
      and then the record has gained every word of `Scopes`. */
  lemma AttachAllScopes(words: seq<string>, known: set<string>)
    ensures FirstUnknown(words, known) == |words| <==> forall w :: w in words ==> w in known
    ensures FirstUnknown(words, known) == |words| ==> PrefixSet(words, |words|) == set w | w in words
  {
    var k := FirstUnknown(words, known);
    if k < |words| {
      assert words[k] in words;
    }
    assert words[..|words|] == words;
  }

  /** A SHA-512 digest (section 6.4 of FIPS 180-4) is 64 bytes. */
  type Digest = d: seq<byte> | |d| == 64 witness seq(64, (_: int) => 0 as byte)

  /** SHA-512 itself is not modelled: any deterministic function to digests. */
  type Sha512 = seq<byte> -> Digest

  /** The 16 random bytes behind `uuid.uuid4()`. */
  type Random128 = r: seq<byte> | |r| == 16 witness seq(16, (_: int) => 0 as byte)

  /** `CallbackRedirect.generate_hash`: the lowercase hex digest of the UTF-8
      session key followed by the UTF-8 salt; 128 characters, which is the
      length of `hash_string`. */
  function GenerateHash(sha512: Sha512, sessionKey: string, salt: string): (h: string)
    ensures |h| == 128 && Hex.IsLowerHex(h)
  {
    var d := sha512(Utf8.Encode(sessionKey) + Utf8.Encode(salt));
    Hex.EncodeShape(d);
    Hex.Encode(d)
  }

  /** Two hashes are equal exactly when the two digests are. */
  lemma GenerateHashEqual(sha512: Sha512, k1: string, s1: string, k2: string, s2: string)
    ensures GenerateHash(sha512, k1, s1) == GenerateHash(sha512, k2, s2) <==>
      sha512(Utf8.Encode(k1) + Utf8.Encode(s1)) == sha512(Utf8.Encode(k2) + Utf8.Encode(s2))
  {
    Hex.EncodeInjective(sha512(Utf8.Encode(k1) + Utf8.Encode(s1)),
                        sha512(Utf8.Encode(k2) + Utf8.Encode(s2)));
  }

  /** The hash depends only on the concatenation of key and salt: moving
      characters between the two gives the same hash. */
  lemma GenerateHashOfConcatenation(sha512: Sha512, k1: string, s1: string, k2: string, s2: string)
    requires k1 + s1 == k2 + s2
    ensures GenerateHash(sha512, k1, s1) == GenerateHash(sha512, k2, s2)
  {
    Utf8.EncodeAppend(k1, s1);
    Utf8.EncodeAppend(k2, s2);
  }

  /** The bytes of a version 4 UUID: the version nibble 4 in byte 6 and the
      variant bits 10 at the top of byte 8 (section 4.4 of RFC 4122). */
  function Uuid4Bytes(random: Random128): (u: Random128) {
    random[6 := random[6] % 16 + 64][8 := random[8] % 64 + 128]
  }

  /** `generate_salt`: `uuid4().hex`, 32 lowercase hex digits, which is the
      length of `salt`, with the version digit `4` at position 12 and a
      variant digit among `8`, `9`, `a` and `b` at position 16. */
  function GenerateSalt(random: Random128): (s: string)
    ensures |s| == 32 && Hex.IsLowerHex(s)
    ensures s[12] == '4' && s[16] in "89ab"
  {
    var u := Uuid4Bytes(random);
    Hex.EncodeShape(u);
    Hex.EncodeAt(u, 6);
    Hex.EncodeAt(u, 8);
    Hex.Encode(u)
  }

  class CallbackRedirect {
    const salt: string
    const hashString: string
    /** Where the callback redirects to; `'/'` unless given. */
    const url: string
    const sessionKey: string
    const created: int
    const allowAuthentication: bool
    var token: AccessToken?

    constructor (salt: string, hashString: string, url: string, sessionKey: string,
                 created: int, allowAuthentication: bool, token: AccessToken?)
      ensures this.salt == salt && this.hashString == hashString && this.url == url
      ensures this.sessionKey == sessionKey && this.created == created
      ensures this.allowAuthentication == allowAuthentication && this.token == token
    {
      this.salt := salt;
      this.hashString := hashString;
      this.url := url;
      this.sessionKey := sessionKey;
      this.created := created;
      this.allowAuthentication := allowAuthentication;
      this.token := token;
    }

    /** `validate(request)`, for a request whose session, once installed,
        has key `requestSessionKey` and whose query has `state`. */
    function Validate(sha512: Sha512, requestSessionKey: string, state: Option<string>)
      : (r: Result<bool, Error>)
      ensures r.Failure? <==> hashString == "" || salt == ""
      ensures r.Failure? ==> r.error == AttributeError
    {
      if hashString == "" || salt == "" then Failure(AttributeError)
      else
        var requestHash := GenerateHash(sha512, requestSessionKey, salt);
        Success(state == Some(requestHash) && requestHash == hashString)
    }

    /** A record accepts a request exactly when the request echoes the
        stored hash as `state` and the request's own session key hashes,
        with the stored salt, to that same value. */
    lemma ValidateAccepts(sha512: Sha512, requestSessionKey: string, state: Option<string>)
      ensures Validate(sha512, requestSessionKey, state) == Success(true) <==>
        && salt != ""
        && state == Some(hashString)
        && GenerateHash(sha512, requestSessionKey, salt) == hashString
    {
    }

    /** A record made for a session accepts that session's callback with
        its own hash as `state`. */
    lemma ValidateOwnSession(sha512: Sha512)
      requires salt != ""
      requires hashString == GenerateHash(sha512, sessionKey, salt)
      ensures Validate(sha512, sessionKey, Some(hashString)) == Success(true)
    {
    }

    /** A record made for a session refuses another session whose digest
        differs, whatever `state` it sends. */
    lemma ValidateOtherSession(sha512: Sha512, other: string, state: Option<string>)
      requires salt != ""
      requires hashString == GenerateHash(sha512, sessionKey, salt)
      requires sha512(Utf8.Encode(other) + Utf8.Encode(salt))
            != sha512(Utf8.Encode(sessionKey) + Utf8.Encode(salt))
      ensures Validate(sha512, other, state) == Success(false)
    {
      GenerateHashEqual(sha512, other, salt, sessionKey, salt);
    }
  }

  /** A stored `CallbackCode`; its exchange is not modelled beyond the
      scope loop, `AccessToken.AttachScopes`. */
  class CallbackCode {
    const code: string
    const created: int

    constructor (code: string, created: int)
      ensures this.code == code && this.created == created
    {
      this.code := code;
      this.created := created;
    }
  }
}
