/** eve_sso/views.py: starting a login with the provider (`sso_redirect`,
    `login_view`) and receiving its callback (`receive_callback`). Django's
    request is reduced to what the views read of it: the session key, the
    full path, the query fields and the logged-in user. */
module Views {
  import opened Wrappers
  import opened Errors
  import opened Text
  import opened Identity
  import opened AppSettings
  import opened Models
  import opened Store
  import opened Managers
  import opened Backends
  import Crest

  datatype Refusal = NotRegistered | Inactive

  /** What a view answers. `ProviderLogin` is the redirect to the
      provider's login page with its query parameters in order. */
  datatype Response =
    | BadRequest
    | Forbidden(reason: Refusal)
    | Redirect(url: string)
    | ProviderLogin(loginUrl: string, params: seq<(string, string)>)

  /** The `scopes` argument of `sso_redirect`: none, one string of
      whitespace-separated names, or a list of names. */
  datatype ScopesArg = NoScopes | Words(s: string) | Names(names: seq<string>)

  /** The scope names after `scopes.split()` for a string. */
  function ScopeNames(scopes: ScopesArg): seq<string> {
    match scopes
    case NoScopes => []
    case Words(s) => Split(s)
    case Names(names) => names
  }

  /** The `scope` parameter: `' '.join(scopes or [])`. */
  function ScopeParam(scopes: ScopesArg): string {
    Join(ScopeNames(scopes))
  }

  /** Requesting a string of scopes asks for its words: the provider, which
      splits `scope` the same way, reads back exactly the words given. */
  lemma ScopeParamOfWords(s: string)
    ensures Split(ScopeParam(Words(s))) == Split(s)
    ensures Crest.WordSet(ScopeParam(Words(s))) == Crest.WordSet(s)
  {
    SplitJoinSplit(s);
  }

  /** A list of scope names that are words is asked for name by name. */
  lemma ScopeParamOfNames(names: seq<string>)
    requires AllWords(names)
    ensures Split(ScopeParam(Names(names))) == names
  {
    SplitJoin(names);
  }

  /** The query parameters of the provider's login redirect. */
  function LoginParams(settings: Settings, scopes: ScopesArg, state: string): seq<(string, string)> {
    [("response_type", "code"), ("redirect_uri", settings.callbackUrl),
     ("client_id", settings.clientId), ("scope", ScopeParam(scopes)), ("state", state)]
  }

  /** `return_to or request.get_full_path()`. */
  function TargetUrl(returnTo: Option<string>, fullPath: string): (url: string)
    ensures Truthy(returnTo) ==> url == returnTo.value
    ensures !Truthy(returnTo) ==> url == fullPath
  {
    if Truthy(returnTo) then returnTo.value else fullPath
  }

  /** `sso_redirect`: a new pending login for the session, and a redirect
      to the provider whose `state` is the record's hash. */
  method SsoRedirect(store: Store, settings: Settings, sha512: Sha512, random: Random128, now: int,
                     sessionKey: string, fullPath: string, scopes: ScopesArg,
                     returnTo: Option<string>, allowAuthentication: bool)
    returns (r: Result<Response, Error>, model: CallbackRedirect?)
    requires store.Valid()
    modifies store
    ensures store.Valid()
    ensures store.tokens == old(store.tokens) && store.codes == old(store.codes)
    ensures r.Failure? <==> old(store.WithSessionKey(sessionKey)) != {}
    ensures r.Failure? ==> r.error == IntegrityError && store.redirects == old(store.redirects) && model == null
    ensures r.Success? ==>
      && model != null && fresh(model)
      && store.redirects == old(store.redirects) + {model}
      && model.sessionKey == sessionKey && model.token == null && model.created == now
      && model.url == TargetUrl(returnTo, fullPath)
      && model.allowAuthentication == allowAuthentication
      && model.salt == GenerateSalt(random)
      && model.hashString == GenerateHash(sha512, sessionKey, model.salt)
      && r.value == ProviderLogin(settings.loginUrl, LoginParams(settings, scopes, model.hashString))
      && model.Validate(sha512, sessionKey, Some(model.hashString)) == Success(true)
  {
    var url := TargetUrl(returnTo, fullPath);
    var args := CreateArgs(Some(sessionKey), Absent, Absent, Some(url), allowAuthentication, null);
    DeriveWithoutHash(sha512, random, sessionKey, Absent, Absent);
    var created := Create(store, args, sha512, random, now);
    if created.Failure? {
      return Failure(created.error), null;
    }
    model := created.value;
    DeriveGeneratesSalt(sha512, random, sessionKey, Absent, Absent);
    DeriveConsistent(sha512, random, sessionKey, Absent, Absent);
    model.ValidateOwnSession(sha512);
    r := Success(ProviderLogin(settings.loginUrl, LoginParams(settings, scopes, model.hashString)));
  }

  /** Lines 63-72 of `receive_callback`: which pending login a callback is
      for, if the view gets past its checks. `matches` are the records whose
      hash is the callback's `state`. */
  datatype Admission = Malformed | Refused | Raised(error: Error) | Admitted(record: CallbackRedirect)

  function Admit(matches: set<CallbackRedirect>, sha512: Sha512, sessionKey: string,
                 code: Option<string>, state: Option<string>): Admission
  {
    if !Truthy(code) || !Truthy(state) then Malformed
    else if matches == {} then Refused
    else if |matches| != 1 then Raised(MultipleObjectsReturned)
    else
      OnlyMember(matches);
      var m :| m in matches;
      match m.Validate(sha512, sessionKey, state)
      case Failure(e) => Raised(e)
      case Success(ok) => if ok then Admitted(m) else Refused
  }

  lemma OnlyMember(matches: set<CallbackRedirect>)
    requires |matches| == 1
    ensures forall a, b :: a in matches && b in matches ==> a == b
    ensures forall m :: m in matches ==> matches == {m}
  {
    var m :| m in matches;
    assert |matches - {m}| == 0;
  }

  /** The records a callback's `state` selects. */
  function Matches(store: Store, state: Option<string>): set<CallbackRedirect>
    reads store
  {
    if state.Some? then store.WithHash(state.value) else {}
  }

  /** A callback gets past the checks exactly when it has a code and a
      state, its state names one pending login, and that record was made
      for the callback's session. */
  lemma AdmitAccepts(matches: set<CallbackRedirect>, sha512: Sha512, sessionKey: string,
                     code: Option<string>, state: Option<string>, m: CallbackRedirect)
    ensures Admit(matches, sha512, sessionKey, code, state) == Admitted(m) <==>
      && Truthy(code) && Truthy(state) && matches == {m}
      && m.salt != "" && state == Some(m.hashString)
      && GenerateHash(sha512, sessionKey, m.salt) == m.hashString
  {
    m.ValidateAccepts(sha512, sessionKey, state);
    if matches == {m} {
      assert |matches| == 1;
      OnlyMember(matches);
    }
    if |matches| == 1 && m in matches {
      OnlyMember(matches);
    }
  }

  /** A missing or empty code or state is a bad request, and no record is
      looked at; a state that names no record is refused. */
  lemma AdmitMalformed(matches: set<CallbackRedirect>, sha512: Sha512, sessionKey: string,
                       code: Option<string>, state: Option<string>)
    ensures Admit(matches, sha512, sessionKey, code, state) == Malformed <==> !Truthy(code) || !Truthy(state)
    ensures Truthy(code) && Truthy(state) && matches == {} ==> Admit(matches, sha512, sessionKey, code, state) == Refused
  {
  }

  /** The login started by `sso_redirect` is completed by the provider's
      callback to the same session, whatever the code: its `state` selects
      the new record and the record accepts it. */
  lemma RedirectThenCallback(matches: set<CallbackRedirect>, sha512: Sha512, model: CallbackRedirect,
                             code: string)
    requires code != "" && matches == {model}
    requires model.salt != "" && model.hashString == GenerateHash(sha512, model.sessionKey, model.salt)
    ensures Admit(matches, sha512, model.sessionKey, Some(code), Some(model.hashString)) == Admitted(model)
  {
    AdmitAccepts(matches, sha512, model.sessionKey, Some(code), Some(model.hashString), model);
  }

  /** `get_or_none(hash_string=state)` followed by `validate`. */
  method Lookup(store: Store, sha512: Sha512, sessionKey: string, code: Option<string>, state: Option<string>)
    returns (a: Admission)
    ensures a == Admit(Matches(store, state), sha512, sessionKey, code, state)
  {
    if !Truthy(code) || !Truthy(state) {
      return Malformed;
    }
    var found := Store.GetOne(store.WithHash(state.value));
    if found.Failure? {
      if found.error == DoesNotExist {
        return Refused;
      }
      if |store.WithHash(state.value)| == 1 {
        OnlyMember(store.WithHash(state.value));
      }
      return Raised(found.error);
    }
    var model := found.value;
    var valid := model.Validate(sha512, sessionKey, state);
    if valid.Failure? {
      return Raised(valid.error);
    }
    a := if valid.value then Admitted(model) else Refused;
  }

  /** The user `authenticate` finds for `token`, from the state before. */
  function AuthenticatedUser(settings: Settings, info: TokenInfo, owners: set<UserId>): Option<UserId> {
    Decide(info.owner, FindUser(settings, info, owners), CreateUser(settings, info))
  }

  /** How lines 87-115 of `receive_callback` end, as a relation between the
      request and the answer. `user` is the logged-in user, `allow` the
      record's `allow_authentication`, `u` the user `authenticate` finds for
      the token, `ownerBefore`/`ownerAfter` the token's owner around the
      view, and `deleted` whether the token was deleted. A login is
      attempted only for an anonymous request to a record allowing
      authentication: nobody found is refused as not registered, an inactive
      user as inactive, and an active one becomes the owner, is logged in
      and sent to the record's url, the token being deleted when it cannot
      be refreshed. Otherwise nothing changes, and the view answers the
      record's url unless a logged-in user does not own the token. */
  predicate Concluded(user: Option<UserId>, allow: bool, url: string, u: Option<UserId>,
                      active: UserId -> bool, canRefresh: bool,
                      ownerBefore: Option<UserId>, ownerAfter: Option<UserId>, deleted: bool,
                      r: Result<Response, Error>, loggedIn: Option<UserId>)
  {
    if user.None? && allow then
      && ownerAfter == u
      && (u.None? ==> r == Success(Forbidden(NotRegistered)) && loggedIn == None && !deleted)
      && (u.Some? && !active(u.value) ==> r == Success(Forbidden(Inactive)) && loggedIn == None && !deleted)
      && (u.Some? && active(u.value) ==> r == Success(Redirect(url)) && loggedIn == u && deleted == !canRefresh)
    else
      && ownerAfter == ownerBefore && !deleted && loggedIn == None
      && (user.Some? && user != ownerBefore ==> r == Failure(RuntimeError))
      && (!(user.Some? && user != ownerBefore) ==> r == Success(Redirect(url)))
  }

  /** Lines 87-115 of `receive_callback`, once the record holds `token`. */
  method Conclude(store: Store, settings: Settings, model: CallbackRedirect, token: AccessToken,
                  user: Option<UserId>, active: UserId -> bool)
    returns (r: Result<Response, Error>, loggedIn: Option<UserId>)
    requires store.Valid() && token in store.tokens
    modifies store, token
    ensures store.Valid() && store.codes == old(store.codes)
    ensures Concluded(user, model.allowAuthentication, model.url,
                      AuthenticatedUser(settings, old(token.Info()), old(store.OwnersOfCharacter(token.characterId))),
                      active, CanRefresh(token.refreshToken), old(token.owner), token.owner,
                      token !in store.tokens, r, loggedIn)
    ensures store.tokens == old(store.tokens) || store.tokens == old(store.tokens) - {token}
    ensures store.redirects == Cascade(old(store.redirects), store.tokens)
    ensures token.created == old(token.created) && token.accessToken == old(token.accessToken)
      && token.scopes == old(token.scopes)
  {
    CascadeOfValid(store.redirects, store.tokens);
    loggedIn := None;
    if user.None? && model.allowAuthentication {
      var u := Authenticate(settings, store, token);
      if u.None? {
        return Success(Forbidden(NotRegistered)), None;
      }
      if !active(u.value) {
        return Success(Forbidden(Inactive)), None;
      }
      loggedIn := u;
      if !CanRefresh(token.refreshToken) {
        store.DeleteToken(token);
      }
    } else if user.Some? && user != token.owner {
      return Failure(RuntimeError), None;
    }
    r := Success(Redirect(model.url));
  }

  /** `receive_callback`. `resolved` is the stored token that
      `get_or_create_from_code(code, owner=user)` answers; `resolverCalled`
      says whether the view asked for it. */
  method ReceiveCallback(store: Store, settings: Settings, sha512: Sha512, sessionKey: string,
                         code: Option<string>, state: Option<string>, user: Option<UserId>,
                         active: UserId -> bool, resolved: AccessToken)
    returns (r: Result<Response, Error>, loggedIn: Option<UserId>, resolverCalled: bool)
    requires store.Valid() && resolved in store.tokens
    modifies store, store.redirects, store.tokens
    ensures store.Valid() && store.codes == old(store.codes) && store.tokens <= old(store.tokens)
    ensures var a := old(Admit(Matches(store, state), sha512, sessionKey, code, state));
      && (a == Malformed ==> r == Success(BadRequest))
      && (a == Refused ==> r == Failure(ForbiddenRaised))
      && (a.Raised? ==> r == Failure(a.error))
      && (!a.Admitted? ==>
            && !resolverCalled && loggedIn == None
            && store.tokens == old(store.tokens) && store.redirects == old(store.redirects)
            && (forall m :: m in store.redirects ==> m.token == old(m.token))
            && (forall t :: t in store.tokens ==> Snap(t) == old(Snap(t))))
      && (a.Admitted? ==>
            var tok := if old(a.record.token) == null then resolved else old(a.record.token);
            && resolverCalled == (old(a.record.token) == null)
            && a.record.token == tok
            && Concluded(user, a.record.allowAuthentication, a.record.url,
                         AuthenticatedUser(settings, old(tok.Info()), old(store.OwnersOfCharacter(tok.characterId))),
                         active, CanRefresh(tok.refreshToken), old(tok.owner), tok.owner,
                         tok !in store.tokens, r, loggedIn)
            && (store.tokens == old(store.tokens) || store.tokens == old(store.tokens) - {tok})
            && store.redirects == Cascade(old(store.redirects), store.tokens)
            && (forall m :: m in old(store.redirects) && m != a.record ==> m.token == old(m.token))
            && tok.created == old(tok.created) && tok.accessToken == old(tok.accessToken)
            && tok.scopes == old(tok.scopes)
            && (forall t :: t in store.tokens && t != tok ==> Snap(t) == old(Snap(t))))
  {
    loggedIn, resolverCalled := None, false;
    var a := Lookup(store, sha512, sessionKey, code, state);
    match a
    case Malformed => return Success(BadRequest), None, false;
    case Refused => return Failure(ForbiddenRaised), None, false;
    case Raised(e) => return Failure(e), None, false;
    case Admitted(model) =>
      assert model in store.redirects;
      var token: AccessToken;
      if model.token != null {
        token := model.token;
      } else {
        token := resolved;
        resolverCalled := true;
        model.token := token;
      }
      r, loggedIn := Conclude(store, settings, model, token, user, active);
  }

  /** `login_view`'s `return_to`: the query field named by
      `REDIRECT_FIELD_NAME` when non-empty, else `LOGIN_REDIRECT_URL`. */
  function ReturnTo(settings: Settings, query: map<string, string>, loginRedirectUrl: string): (url: string)
    ensures settings.redirectFieldName in query && query[settings.redirectFieldName] != "" ==>
      url == query[settings.redirectFieldName]
    ensures !(settings.redirectFieldName in query && query[settings.redirectFieldName] != "") ==>
      url == loginRedirectUrl
  {
    var field := if settings.redirectFieldName in query then Some(query[settings.redirectFieldName]) else None;
    if Truthy(field) then field.value else loginRedirectUrl
  }

  /** `login_view`: a logged-in user goes straight to `return_to` and no
      record is made; otherwise the login starts with `LOGIN_SCOPES` and
      authentication allowed, returning to `return_to`. */
  method LoginView(store: Store, settings: Settings, sha512: Sha512, random: Random128, now: int,
                   sessionKey: string, fullPath: string, query: map<string, string>,
                   loginRedirectUrl: string, authenticated: bool)
    returns (r: Result<Response, Error>)
    requires store.Valid()
    modifies store
    ensures store.Valid()
    ensures store.tokens == old(store.tokens) && store.codes == old(store.codes)
    ensures authenticated ==>
      r == Success(Redirect(ReturnTo(settings, query, loginRedirectUrl))) && store.redirects == old(store.redirects)
    ensures !authenticated ==>
      && (r.Failure? <==> old(store.WithSessionKey(sessionKey)) != {})
      && (r.Failure? ==> r.error == IntegrityError && store.redirects == old(store.redirects))
      && (r.Success? ==> exists model: CallbackRedirect ::
            && model !in old(store.redirects)
            && store.redirects == old(store.redirects) + {model}
            && model.sessionKey == sessionKey && model.token == null && model.created == now
            && model.salt == GenerateSalt(random)
            && model.hashString == GenerateHash(sha512, sessionKey, model.salt)
            && model.allowAuthentication
            && model.url == TargetUrl(Some(ReturnTo(settings, query, loginRedirectUrl)), fullPath)
            && r.value == ProviderLogin(settings.loginUrl,
                                        LoginParams(settings, Names(settings.loginScopes), model.hashString)))
  {
    var returnTo := ReturnTo(settings, query, loginRedirectUrl);
    if authenticated {
      return Success(Redirect(returnTo));
    }
    var model;
    r, model := SsoRedirect(store, settings, sha512, random, now, sessionKey, fullPath,
                            Names(settings.loginScopes), Some(returnTo), true);
  }
}
