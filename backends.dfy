/** eve_sso/backends.py: the authentication backend that finds or creates
    the local user for a provider token and records it as the token's
    owner. The injected user functions are pure functions of what they see
    of the token. */
module Backends {
  import opened Wrappers
  import opened Errors
  import opened Identity
  import opened AppSettings
  import opened Models
  import opened Store

  lemma SingletonHasOne(users: set<UserId>)
    requires |users| == 1
    ensures exists u :: users == {u}
  {
    var u :| u in users;
    assert |users - {u}| == 0;
    assert users == {u};
  }

  /** The only user of `users`, when there is exactly one. */
  function Sole(users: set<UserId>): (r: Option<UserId>)
    ensures r.Some? <==> |users| == 1
    ensures r.Some? ==> users == {r.value}
  {
    if |users| == 1 then
      SingletonHasOne(users);
      var u :| users == {u};
      Some(u)
    else None
  }

  /** `find_user` as written: it consults `AUTH_USER_FROM_TOKEN_FUNC`, the
      setting documented as the function that creates users. */
  function FindUserAsWritten(settings: Settings, info: TokenInfo, owners: set<UserId>): Option<UserId>
  {
    match settings.authUserFromTokenFunc
    case Some(f) => f(info)
    case None => Sole(owners)
  }

  /** `find_user` with `AUTH_FIND_USER_FUNC`, the setting documented as the
      function that finds users; otherwise the only user owning a stored
      token of the same character (`owners`). */
  function FindUser(settings: Settings, info: TokenInfo, owners: set<UserId>): Option<UserId>
  {
    match settings.authFindUserFunc
    case Some(f) => f(info)
    case None => Sole(owners)
  }

  /** `create_user`: `AUTH_USER_FROM_TOKEN_FUNC`, if creating unknown users
      is enabled and that function is set. */
  function CreateUser(settings: Settings, info: TokenInfo): Option<UserId>
  {
    if settings.authCreateUnknownUser && settings.authUserFromTokenFunc.Some? then
      settings.authUserFromTokenFunc.value(info)
    else None
  }

  /** Lines 19-38 of `authenticate` as written, given the token's owner and
      what `self.find_user` and `self.create_user` answer (a subclass may
      override either): the log line for a created user reads
      `___name__`, which no class has, and raises `AttributeError`. */
  function DecideAsWritten(owner: Option<UserId>, found: Option<UserId>, created: Option<UserId>)
    : Result<Option<UserId>, Error>
  {
    if owner.Some? then Success(owner)
    else if found.Some? then Success(found)
    else if created.Some? then Failure(AttributeError)
    else Success(None)
  }

  /** Lines 19-38 of `authenticate` with the log line reading `__name__`. */
  function Decide(owner: Option<UserId>, found: Option<UserId>, created: Option<UserId>): Option<UserId>
  {
    if owner.Some? then owner
    else if found.Some? then found
    else created
  }

  /** The owner is kept; otherwise the found user, otherwise the created
      one, and `None` only when there is none of the three. */
  lemma DecidePrefersOwner(owner: Option<UserId>, found: Option<UserId>, created: Option<UserId>)
    ensures owner.Some? ==> Decide(owner, found, created) == owner
    ensures owner.None? && found.Some? ==> Decide(owner, found, created) == found
    ensures owner.None? && found.None? ==> Decide(owner, found, created) == created
    ensures Decide(owner, found, created).None? <==> owner.None? && found.None? && created.None?
    ensures DecideAsWritten(owner, found, created).Success? <==> owner.Some? || found.Some? || created.None?
    ensures DecideAsWritten(owner, found, created).Success? ==>
      DecideAsWritten(owner, found, created).value == Decide(owner, found, created)
  {
  }

  /** `find_user` uses the configured function when there is one; otherwise
      it finds a user exactly when one user owns the character's tokens. As
      written the configured function is the creating one. */
  lemma FindUserCases(settings: Settings, info: TokenInfo, owners: set<UserId>)
    ensures settings.authFindUserFunc.Some? ==>
      FindUser(settings, info, owners) == settings.authFindUserFunc.value(info)
    ensures settings.authFindUserFunc.None? ==>
      && (FindUser(settings, info, owners).Some? <==> |owners| == 1)
      && (FindUser(settings, info, owners).Some? ==> owners == {FindUser(settings, info, owners).value})
    ensures settings.authUserFromTokenFunc.Some? ==>
      FindUserAsWritten(settings, info, owners) == settings.authUserFromTokenFunc.value(info)
    ensures settings.authUserFromTokenFunc.None? ==>
      FindUserAsWritten(settings, info, owners) == Sole(owners)
  {
  }

  /** A user is created only when `AUTH_CREATE_UNKNOWN_USER` is set and a
      creating function is configured. */
  lemma CreateUserGate(settings: Settings, info: TokenInfo)
    ensures CreateUser(settings, info).Some? ==>
      settings.authCreateUnknownUser && settings.authUserFromTokenFunc.Some?
    ensures settings.authCreateUnknownUser && settings.authUserFromTokenFunc.Some? ==>
      CreateUser(settings, info) == settings.authUserFromTokenFunc.value(info)
  {
  }

  /** As written, the `AttributeError` of the log line cannot happen: when
      the creating function finds no user in `find_user`, it finds none in
      `create_user` either. */
  lemma AsWrittenNeverLogs(settings: Settings, info: TokenInfo, owners: set<UserId>)
    ensures FindUserAsWritten(settings, info, owners).None? ==> CreateUser(settings, info).None?
    ensures DecideAsWritten(info.owner, FindUserAsWritten(settings, info, owners), CreateUser(settings, info)).Success?
  {
  }

  /** As written, a token with a new character gets the creating function's
      user even when creating unknown users is disabled; with
      `AUTH_FIND_USER_FUNC` unset it gets none. */
  lemma AsWrittenIgnoresCreateGate(settings: Settings, info: TokenInfo, u: UserId)
    requires !settings.authCreateUnknownUser
    requires settings.authFindUserFunc.None?
    requires settings.authUserFromTokenFunc.Some? && settings.authUserFromTokenFunc.value(info) == Some(u)
    requires info.owner.None?
    ensures DecideAsWritten(info.owner, FindUserAsWritten(settings, info, {}), CreateUser(settings, info)) == Success(Some(u))
    ensures Decide(info.owner, FindUser(settings, info, {}), CreateUser(settings, info)) == None
  {
    var none: set<UserId> := {};
    assert |none| == 0;
  }

  /** Once `find_user` reads its own setting, a created user reaches the log
      line, which as written raises after the user was created and before
      it becomes the owner. */
  lemma LogLineRaises(u: UserId)
    ensures DecideAsWritten(None, None, Some(u)) == Failure(AttributeError)
    ensures Decide(None, None, Some(u)) == Some(u)
  {
  }

  /** `authenticate` as written. */
  method AuthenticateAsWritten(settings: Settings, store: Store, t: AccessToken?)
    returns (r: Result<Option<UserId>, Error>)
    modifies t
    ensures t == null ==> r == Success(None)
    ensures t != null ==>
      r == DecideAsWritten(old(t.owner), FindUserAsWritten(settings, old(t.Info()), old(store.OwnersOfCharacter(t.characterId))),
                           CreateUser(settings, old(t.Info())))
    ensures t != null ==>
      t.owner == (if r.Success? && r.value.Some? then r.value else old(t.owner))
    ensures t != null ==>
      t.created == old(t.created) && t.accessToken == old(t.accessToken) && t.scopes == old(t.scopes)
  {
    if t == null {
      return Success(None);
    }
    if t.owner.Some? {
      return Success(t.owner);
    }
    var user := FindUserAsWritten(settings, t.Info(), store.OwnersOfCharacter(t.characterId));
    if user.None? {
      user := CreateUser(settings, t.Info());
      if user.Some? {
        return Failure(AttributeError);
      }
    }
    if user.Some? {
      t.owner := user;
    }
    r := Success(user);
  }

  /** `authenticate`: no token gives `None`; a token's owner is returned
      with nothing saved; otherwise the found or created user is returned
      and becomes the owner, and without one the owner stays empty. */
  method Authenticate(settings: Settings, store: Store, t: AccessToken?) returns (r: Option<UserId>)
    modifies t
    ensures t == null ==> r == None
    ensures t != null ==>
      r == Decide(old(t.owner), FindUser(settings, old(t.Info()), old(store.OwnersOfCharacter(t.characterId))),
                  CreateUser(settings, old(t.Info())))
    ensures t != null ==> t.owner == r
    ensures t != null ==>
      t.created == old(t.created) && t.accessToken == old(t.accessToken) && t.scopes == old(t.scopes)
    ensures t != null && old(t.owner).Some? ==> r == old(t.owner) && unchanged(t)
  {
    if t == null {
      return None;
    }
    if t.owner.Some? {
      return t.owner;
    }
    var user := FindUser(settings, t.Info(), store.OwnersOfCharacter(t.characterId));
    if user.None? {
      user := CreateUser(settings, t.Info());
    }
    if user.Some? {
      t.owner := user;
    }
    r := user;
  }
}
