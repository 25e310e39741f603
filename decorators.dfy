/** eve_sso/decorators.py: `token_required`, which hands a view the
    provider tokens it needs or sends the browser to get them. The wrapped
    view itself is not modelled: calling it is the answer `ViewCalled`. */
module Decorators {
  import opened Wrappers
  import opened Errors
  import opened Http
  import opened Identity
  import opened AppSettings
  import opened Models
  import opened Store
  import opened Tasks
  import opened Views

  /** What the wrapped view answers. */
  datatype Answer =
    | ViewCalled(tokens: set<AccessToken>)
    | LoginRedirect(next: string)
    | Sso(response: Response)

  /** The requested scope names, a string being split on whitespace. */
  function NameSet(scopes: ScopesArg): set<string> {
    set n | n in ScopeNames(scopes)
  }

  /** The way `token_required` answers a request: the token of the
      session's finished login handed over, the login page, the user's
      stored tokens, or a new login at the provider. */
  datatype Route = HandOver | ToLogin | FromStore | ToProvider

  /** The route for a request: `claimed` says the session's pending login
      held a token, `kept` that the user has a usable stored token with a
      requested scope. */
  function Choose(claimed: bool, requireNew: bool, loggedIn: bool, kept: bool): Route {
    if requireNew then (if claimed then HandOver else ToProvider)
    else if !loggedIn then ToLogin
    else if kept then FromStore
    else ToProvider
  }

  /** The answer is of the route's kind; a view is never called without a
      token. */
  predicate Fits(a: Answer, route: Route) {
    match route
    case HandOver => a.ViewCalled? && |a.tokens| == 1
    case ToLogin => a.LoginRedirect?
    case FromStore => a.ViewCalled? && a.tokens != {}
    case ToProvider => a.Sso?
  }

  /** The provider is asked for a new token exactly when `new` is requested
      without a finished login, or a logged-in user has no usable token. */
  lemma ChooseProvider(claimed: bool, requireNew: bool, loggedIn: bool, kept: bool)
    ensures Choose(claimed, requireNew, loggedIn, kept) == ToProvider <==>
      (requireNew && !claimed) || (!requireNew && loggedIn && !kept)
    ensures Choose(claimed, requireNew, loggedIn, kept) == HandOver <==> requireNew && claimed
    ensures Choose(claimed, requireNew, loggedIn, kept) == ToLogin <==> !requireNew && !loggedIn
  {
  }

  /** The session's pending logins that hold a token: at most one, since
      session keys are unique. */
  function Claimable(store: Store, sessionKey: string): set<CallbackRedirect>
    reads store, store.redirects
  {
    set m | m in store.redirects && m.sessionKey == sessionKey && m.token != null
  }

  /** Lines 32-39: the session's pending login is deleted when it holds a
      token, and that token is answered; a pending login without one makes
      `model.token.pk` raise `AttributeError`, which is swallowed, and the
      record stays. */
  method ClaimPending(store: Store, sessionKey: string) returns (token: AccessToken?)
    requires store.Valid()
    modifies store
    ensures store.Valid()
    ensures store.tokens == old(store.tokens) && store.codes == old(store.codes)
    ensures store.redirects == old(store.redirects) - old(Claimable(store, sessionKey))
    ensures token != null <==> old(Claimable(store, sessionKey)) != {}
    ensures forall m :: old(store.WithSessionKey(sessionKey)) == {m} ==> token == old(m.token)
    ensures token != null ==> token in store.tokens
  {
    AtMostOnePerSession(store, sessionKey);
    var found := Store.GetOne(store.WithSessionKey(sessionKey));
    token := null;
    if found.Success? {
      var model := found.value;
      if model.token != null {
        token := model.token;
        assert Claimable(store, sessionKey) == {model};
        store.DeleteRedirect(model);
      } else {
        assert Claimable(store, sessionKey) == {};
      }
    } else {
      assert Claimable(store, sessionKey) == {};
    }
  }

  /** One token of the loop of lines 48-52: `t.token`, and deleting `t` when
      that raises a `TokenError`. */
  method CheckOne(store: Store, t: AccessToken, config: Config, provider: Request -> Reply, now: int)
    returns (r: Outcome<Error>)
    requires store.Valid() && t in store.tokens
    modifies store, t
    ensures store.Valid() && store.codes == old(store.codes)
    ensures store.tokens == old(store.tokens) || store.tokens == old(store.tokens) - {t}
    ensures store.redirects == Cascade(old(store.redirects), store.tokens)
    ensures t.owner == old(t.owner) && t.scopes == old(t.scopes)
    ensures r.Pass? ==> Swept(t in store.tokens, Snap(t), old(Snap(t)), t.refreshToken, config, provider, now)
    ensures r.Fail? ==>
      && SweepStep(config, provider, now, old(t.created), t.refreshToken) == Abort(r.error)
      && store.tokens == old(store.tokens)
  {
    CascadeOfValid(store.redirects, store.tokens);
    var value, _ := t.Token(config, provider, now);
    r := Pass;
    if value.Failure? {
      if IsTokenError(value.error) {
        store.DeleteToken(t);
      } else {
        r := Fail(value.error);
      }
    }
  }

  /** Lines 48-52 over the user's tokens with a requested scope: each is
      checked once, in no particular order, and removed when `.token`
      raises a `TokenError`; any other exception ends the loop. */
  method Prune(store: Store, candidates: set<AccessToken>, config: Config, provider: Request -> Reply, now: int)
    returns (r: Outcome<Error>)
    requires store.Valid() && candidates <= store.tokens
    modifies store, candidates
    ensures store.Valid() && store.codes == old(store.codes)
    ensures store.tokens <= old(store.tokens) && old(store.tokens) - candidates <= store.tokens
    ensures store.redirects == Cascade(old(store.redirects), store.tokens)
    ensures r.Pass? ==> forall t :: t in candidates ==> Swept(t in store.tokens, Snap(t), old(Snap(t)), t.refreshToken, config, provider, now)
    ensures r.Fail? ==>
      exists t :: t in candidates && SweepStep(config, provider, now, old(t.created), t.refreshToken) == Abort(r.error)
    ensures r.Fail? ==> forall t :: t in candidates ==>
      || Swept(t in store.tokens, Snap(t), old(Snap(t)), t.refreshToken, config, provider, now)
      || (t in store.tokens && Snap(t) == old(Snap(t)))
      || SweepStep(config, provider, now, old(t.created), t.refreshToken) == Abort(r.error)
  {
    var todo := candidates;
    CascadeOfValid(store.redirects, store.tokens);
    while todo != {}
      invariant todo <= candidates
      invariant store.tokens <= old(store.tokens) && old(store.tokens) - candidates <= store.tokens
      invariant store.codes == old(store.codes)
      invariant store.Valid()
      invariant store.redirects == Cascade(old(store.redirects), store.tokens)
      invariant forall t :: t in todo ==> t in store.tokens && Snap(t) == old(Snap(t))
      invariant forall t :: t in candidates && t !in todo ==> Swept(t in store.tokens, Snap(t), old(Snap(t)), t.refreshToken, config, provider, now)
      decreases |todo|
    {
      var t :| t in todo;
      todo := todo - {t};
      ghost var left := store.tokens;
      r := CheckOne(store, t, config, provider, now);
      CascadeShrink(old(store.redirects), left, store.tokens);
      if r.Fail? {
        return;
      }
    }
    r := Pass;
  }

  /** A token kept by a completed check: it was fresh or has been renewed. */
  predicate Kept(t: AccessToken, before: Snapshot, config: Config, provider: Request -> Reply, now: int)
    reads t
  {
    SweepStep(config, provider, now, before.created, t.refreshToken) in {Keep, Renew}
  }

  /** After the loop a candidate is still stored exactly when it passed the
      check, and the user's tokens with a requested scope are exactly the
      candidates that passed it. */
  lemma PrunedTokens(store: Store, candidates: set<AccessToken>, user: UserId, names: set<string>,
                     config: Config, provider: Request -> Reply, now: int,
                     before: map<AccessToken, Snapshot>)
    requires forall t :: t in candidates ==> t in before && Swept(t in store.tokens, Snap(t), before[t], t.refreshToken, config, provider, now)
    requires forall t :: t in candidates ==> before[t].owner == Some(user) && before[t].scopes * names != {}
    requires forall t :: t in store.tokens && t.owner == Some(user) && t.scopes * names != {} ==> t in candidates
    ensures forall t :: t in candidates ==> (t in store.tokens <==> Kept(t, before[t], config, provider, now))
    ensures forall t :: t in store.TokensOf(user, names) <==>
      t in candidates && Kept(t, before[t], config, provider, now)
  {
  }

  /** Lines 48-54: the user's tokens with a requested scope once those
      failing the check are gone. */
  method StoredTokens(store: Store, user: UserId, names: set<string>, config: Config,
                      provider: Request -> Reply, now: int)
    returns (r: Result<set<AccessToken>, Error>)
    requires store.Valid()
    modifies store, store.tokens
    ensures store.Valid() && store.codes == old(store.codes) && store.tokens <= old(store.tokens)
    ensures old(store.tokens) - old(store.TokensOf(user, names)) <= store.tokens
    ensures store.redirects == Cascade(old(store.redirects), store.tokens)
    ensures r.Success? ==>
      && r.value == store.TokensOf(user, names)
      && (forall t :: t in r.value <==>
            t in old(store.TokensOf(user, names)) && Kept(t, old(Snap(t)), config, provider, now))
      && (forall t :: t in old(store.TokensOf(user, names)) ==>
            (t in store.tokens <==> Kept(t, old(Snap(t)), config, provider, now)))
    ensures r.Failure? ==>
      exists t :: t in old(store.TokensOf(user, names))
                  && SweepStep(config, provider, now, old(t.created), t.refreshToken) == Abort(r.error)
    ensures forall t :: t in store.tokens && t !in old(store.TokensOf(user, names)) ==> Snap(t) == old(Snap(t))
    ensures r.Success? ==> forall t :: t in old(store.TokensOf(user, names)) ==>
      Swept(t in store.tokens, Snap(t), old(Snap(t)), t.refreshToken, config, provider, now)
    ensures r.Failure? ==> forall t :: t in old(store.TokensOf(user, names)) ==>
      || Swept(t in store.tokens, Snap(t), old(Snap(t)), t.refreshToken, config, provider, now)
      || (t in store.tokens && Snap(t) == old(Snap(t)))
      || SweepStep(config, provider, now, old(t.created), t.refreshToken) == Abort(r.error)
  {
    ghost var before := map t | t in store.tokens :: Snap(t);
    var candidates := store.TokensOf(user, names);
    var check := Prune(store, candidates, config, provider, now);
    if check.Fail? {
      return Failure(check.error);
    }
    PrunedTokens(store, candidates, user, names, config, provider, now, before);
    r := Success(store.TokensOf(user, names));
  }

  /** Line 59: `sso_redirect(request, scopes=scopes)`, back to the full path
      and without authentication. */
  method AskProvider(store: Store, settings: Settings, sha512: Sha512, random: Random128, now: int,
                     sessionKey: string, fullPath: string, scopes: ScopesArg)
    returns (r: Result<Answer, Error>)
    requires store.Valid()
    modifies store
    ensures store.Valid() && store.tokens == old(store.tokens) && store.codes == old(store.codes)
    ensures r.Failure? <==> old(store.WithSessionKey(sessionKey)) != {}
    ensures r.Failure? ==> r.error == IntegrityError && store.redirects == old(store.redirects)
    ensures r.Success? ==> (r.value.Sso? &&
      exists model: CallbackRedirect ::
        && model !in old(store.redirects) && store.redirects == old(store.redirects) + {model}
        && model.sessionKey == sessionKey && model.url == fullPath
        && !model.allowAuthentication && model.token == null
        && r.value.response == ProviderLogin(settings.loginUrl,
                                             LoginParams(settings, Names(ScopeNames(scopes)), model.hashString)))
  {
    var response, model := SsoRedirect(store, settings, sha512, random, now, sessionKey, fullPath,
                                       Names(ScopeNames(scopes)), None, false);
    if response.Failure? {
      return Failure(response.error);
    }
    r := Success(Sso(response.value));
  }

  /** Lines 49-59 for a logged-in `user` when no new token is required: the
      user's stored tokens that survive the check, or else the provider. */
  method StoredOrProvider(store: Store, settings: Settings, config: Config, provider: Request -> Reply,
                   sha512: Sha512, random: Random128, now: int, sessionKey: string, fullPath: string,
                   user: UserId, scopes: ScopesArg)
    returns (r: Result<Answer, Error>)
    requires store.Valid()
    modifies store, store.tokens
    ensures store.Valid() && store.codes == old(store.codes) && store.tokens <= old(store.tokens)
    ensures old(store.tokens) - old(store.TokensOf(user, NameSet(scopes))) <= store.tokens
    ensures r.Success? ==>
      && Fits(r.value, if store.TokensOf(user, NameSet(scopes)) != {} then FromStore else ToProvider)
      && forall t :: t in old(store.TokensOf(user, NameSet(scopes))) ==>
           (t in store.tokens <==> Kept(t, old(Snap(t)), config, provider, now))
    ensures r.Success? && r.value.ViewCalled? ==>
      && r.value.tokens == store.TokensOf(user, NameSet(scopes))
      && forall t :: t in r.value.tokens <==>
           t in old(store.TokensOf(user, NameSet(scopes))) && Kept(t, old(Snap(t)), config, provider, now)
    ensures r.Failure? ==>
      || (&& r.error == IntegrityError
          && old(store.WithSessionKey(sessionKey)) != {}
          && store.TokensOf(user, NameSet(scopes)) == {})
      || (exists t :: t in old(store.TokensOf(user, NameSet(scopes)))
                      && SweepStep(config, provider, now, old(t.created), t.refreshToken) == Abort(r.error))
    ensures var rest := Cascade(old(store.redirects), store.tokens);
      && (r.Success? && r.value.Sso? ==>
            exists model: CallbackRedirect ::
              && model !in old(store.redirects) && store.redirects == rest + {model}
              && model.sessionKey == sessionKey && model.url == fullPath
              && !model.allowAuthentication && model.token == null
              && r.value.response == ProviderLogin(settings.loginUrl,
                                                   LoginParams(settings, Names(ScopeNames(scopes)), model.hashString)))
      && (!(r.Success? && r.value.Sso?) ==> store.redirects == rest)
    ensures forall m :: m in old(store.WithSessionKey(sessionKey)) && old(m.token) == null ==>
      && m in store.redirects
      && (r.Success? ==> r.value.ViewCalled?)
    ensures forall t :: t in store.tokens && t !in old(store.TokensOf(user, NameSet(scopes))) ==>
      Snap(t) == old(Snap(t))
    ensures forall t :: t in old(store.TokensOf(user, NameSet(scopes))) ==>
      || Swept(t in store.tokens, Snap(t), old(Snap(t)), t.refreshToken, config, provider, now)
      || (r.Failure? && t in store.tokens && Snap(t) == old(Snap(t)))
      || (r.Failure? && SweepStep(config, provider, now, old(t.created), t.refreshToken) == Abort(r.error))
  {
    var remaining := StoredTokens(store, user, NameSet(scopes), config, provider, now);
    if remaining.Failure? {
      return Failure(remaining.error);
    }
    if remaining.value != {} {
      return Success(ViewCalled(remaining.value));
    }
    r := AskProvider(store, settings, sha512, random, now, sessionKey, fullPath, scopes);
  }

  /** Lines 45-59 once any claimed token is handled: a new token is asked
      for, or an anonymous user is sent to log in, or the stored tokens are
      checked. */
  method Proceed(store: Store, settings: Settings, config: Config, provider: Request -> Reply,
                 sha512: Sha512, random: Random128, now: int, sessionKey: string, fullPath: string,
                 user: Option<UserId>, scopes: ScopesArg, requireNew: bool)
    returns (r: Result<Answer, Error>)
    requires store.Valid()
    modifies store, store.tokens
    ensures store.Valid() && store.codes == old(store.codes) && store.tokens <= old(store.tokens)
    ensures requireNew || user.None? ==> store.tokens == old(store.tokens)
    ensures user.Some? ==> old(store.tokens) - old(store.TokensOf(user.value, NameSet(scopes))) <= store.tokens
    ensures !requireNew && user.None? ==> r == Success(LoginRedirect(fullPath))
    ensures r.Success? ==>
      Fits(r.value, Choose(false, requireNew, user.Some?,
                           user.Some? && store.TokensOf(user.value, NameSet(scopes)) != {}))
    ensures !requireNew && user.Some? && r.Success? ==>
      forall t :: t in old(store.TokensOf(user.value, NameSet(scopes))) ==>
        (t in store.tokens <==> Kept(t, old(Snap(t)), config, provider, now))
    ensures !requireNew && r.Success? && r.value.ViewCalled? ==>
      && user.Some?
      && r.value.tokens == store.TokensOf(user.value, NameSet(scopes))
      && forall t :: t in r.value.tokens <==>
           t in old(store.TokensOf(user.value, NameSet(scopes))) && Kept(t, old(Snap(t)), config, provider, now)
    ensures r.Failure? ==>
      || (&& r.error == IntegrityError
          && old(store.WithSessionKey(sessionKey)) != {}
          && Choose(false, requireNew, user.Some?,
                    user.Some? && store.TokensOf(user.value, NameSet(scopes)) != {}) == ToProvider)
      || (&& !requireNew && user.Some?
          && exists t :: t in old(store.TokensOf(user.value, NameSet(scopes)))
                         && SweepStep(config, provider, now, old(t.created), t.refreshToken) == Abort(r.error))
    ensures var rest := Cascade(old(store.redirects), store.tokens);
      && (r.Success? && r.value.Sso? ==>
            exists model: CallbackRedirect ::
              && model !in old(store.redirects) && store.redirects == rest + {model}
              && model.sessionKey == sessionKey && model.url == fullPath
              && !model.allowAuthentication && model.token == null
              && r.value.response == ProviderLogin(settings.loginUrl,
                                                   LoginParams(settings, Names(ScopeNames(scopes)), model.hashString)))
      && (!(r.Success? && r.value.Sso?) ==> store.redirects == rest)
    ensures forall m :: m in old(store.WithSessionKey(sessionKey)) && old(m.token) == null ==>
      && m in store.redirects
      && (r.Success? ==> r.value.ViewCalled? || r.value.LoginRedirect?)
    ensures requireNew || user.None? ==> forall t :: t in store.tokens ==> Snap(t) == old(Snap(t))
    ensures user.Some? ==> forall t :: t in store.tokens && t !in old(store.TokensOf(user.value, NameSet(scopes))) ==>
      Snap(t) == old(Snap(t))
    ensures !requireNew && user.Some? ==> forall t :: t in old(store.TokensOf(user.value, NameSet(scopes))) ==>
      || Swept(t in store.tokens, Snap(t), old(Snap(t)), t.refreshToken, config, provider, now)
      || (r.Failure? && t in store.tokens && Snap(t) == old(Snap(t)))
      || (r.Failure? && SweepStep(config, provider, now, old(t.created), t.refreshToken) == Abort(r.error))
  {
    CascadeOfValid(store.redirects, store.tokens);
    if requireNew {
      r := AskProvider(store, settings, sha512, random, now, sessionKey, fullPath, scopes);
    } else if user.None? {
      r := Success(LoginRedirect(fullPath));
    } else {
      r := StoredOrProvider(store, settings, config, provider, sha512, random, now, sessionKey, fullPath, user.value, scopes);
    }
  }

  /** `token_required(scopes, new)` around a view, for a request of session
      `sessionKey` by `user` (`None` when not logged in). */
  method TokenRequired(store: Store, settings: Settings, config: Config, provider: Request -> Reply,
                       sha512: Sha512, random: Random128, now: int, sessionKey: string, fullPath: string,
                       user: Option<UserId>, scopes: ScopesArg, requireNew: bool)
    returns (r: Result<Answer, Error>)
    requires store.Valid()
    modifies store, store.tokens
    ensures store.Valid() && store.codes == old(store.codes) && store.tokens <= old(store.tokens)
    ensures requireNew || user.None? ==> store.tokens == old(store.tokens)
    ensures user.Some? ==> old(store.tokens) - old(store.TokensOf(user.value, NameSet(scopes))) <= store.tokens
    ensures forall m :: old(store.WithSessionKey(sessionKey)) == {m} && old(m.token) != null ==>
      && m !in store.redirects
      && (requireNew ==> r == Success(ViewCalled({old(m.token)})))
    ensures !requireNew && user.None? ==> r == Success(LoginRedirect(fullPath))
    ensures r.Success? ==>
      Fits(r.value, Choose(old(Claimable(store, sessionKey)) != {}, requireNew, user.Some?,
                           user.Some? && store.TokensOf(user.value, NameSet(scopes)) != {}))
    ensures !requireNew && user.Some? && r.Success? ==>
      forall t :: t in old(store.TokensOf(user.value, NameSet(scopes))) ==>
        (t in store.tokens <==> Kept(t, old(Snap(t)), config, provider, now))
    ensures !requireNew && r.Success? && r.value.ViewCalled? ==>
      && user.Some?
      && r.value.tokens == store.TokensOf(user.value, NameSet(scopes))
      && forall t :: t in r.value.tokens <==>
           t in old(store.TokensOf(user.value, NameSet(scopes))) && Kept(t, old(Snap(t)), config, provider, now)
    ensures r.Failure? ==>
      || (&& r.error == IntegrityError
          && old(store.WithSessionKey(sessionKey)) - old(Claimable(store, sessionKey)) != {}
          && Choose(old(Claimable(store, sessionKey)) != {}, requireNew, user.Some?,
                    user.Some? && store.TokensOf(user.value, NameSet(scopes)) != {}) == ToProvider)
      || (&& !requireNew && user.Some?
          && exists t :: t in old(store.TokensOf(user.value, NameSet(scopes)))
                         && SweepStep(config, provider, now, old(t.created), t.refreshToken) == Abort(r.error))
    ensures var rest := Cascade(old(store.redirects) - old(Claimable(store, sessionKey)), store.tokens);
      && (r.Success? && r.value.Sso? ==>
            exists model: CallbackRedirect ::
              && model !in old(store.redirects) && store.redirects == rest + {model}
              && model.sessionKey == sessionKey && model.url == fullPath
              && !model.allowAuthentication && model.token == null
              && r.value.response == ProviderLogin(settings.loginUrl,
                                                   LoginParams(settings, Names(ScopeNames(scopes)), model.hashString)))
      && (!(r.Success? && r.value.Sso?) ==> store.redirects == rest)
    ensures forall m :: old(store.WithSessionKey(sessionKey)) == {m} && old(m.token) == null ==>
      && m in store.redirects
      && (r.Success? ==> r.value.ViewCalled? || r.value.LoginRedirect?)
    ensures requireNew || user.None? ==> forall t :: t in store.tokens ==> Snap(t) == old(Snap(t))
    ensures user.Some? ==> forall t :: t in store.tokens && t !in old(store.TokensOf(user.value, NameSet(scopes))) ==>
      Snap(t) == old(Snap(t))
    ensures !requireNew && user.Some? ==> forall t :: t in old(store.TokensOf(user.value, NameSet(scopes))) ==>
      || Swept(t in store.tokens, Snap(t), old(Snap(t)), t.refreshToken, config, provider, now)
      || (r.Failure? && t in store.tokens && Snap(t) == old(Snap(t)))
      || (r.Failure? && SweepStep(config, provider, now, old(t.created), t.refreshToken) == Abort(r.error))
  {
    var token := ClaimPending(store, sessionKey);
    if token != null && requireNew {
      CascadeOfValid(store.redirects, store.tokens);
      return Success(ViewCalled({token}));
    }
    ghost var names := NameSet(scopes);
    assert user.Some? ==> store.TokensOf(user.value, names) == old(store.TokensOf(user.value, names));
    r := Proceed(store, settings, config, provider, sha512, random, now, sessionKey, fullPath, user, scopes, requireNew);
  }
}
