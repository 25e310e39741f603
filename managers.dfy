/** eve_sso/managers.py: `CallbackRedirectManager.create`, which settles the
    salt and the hash of a new pending login before saving it. */
module Managers {
  import opened Wrappers
  import opened Errors
  import opened Text
  import opened Models
  import opened Store

  /** A `salt` or `hash_string` keyword argument: absent, `None`, a string,
      or a list (as the `[None]` default suggests) of optional strings. */
  datatype Arg = Absent | NoneValue | Str(s: string) | List(items: seq<Option<string>>)

  /** The keyword arguments of `create`. `session_key` is mandatory; `url`
      defaults to `'/'`, `allow_authentication` to false and `token` to
      none when `create` passes them on to the model. */
  datatype CreateArgs = CreateArgs(sessionKey: Option<string>, salt: Arg, hashString: Arg,
                                   url: Option<string>, allowAuthentication: bool,
                                   token: AccessToken?)

  /** `kwargs.pop(name, [None])[0]`: an absent argument gives `None`, a
      string its first character, a list its first element; an empty string
      or list raises `IndexError` and `None` raises `TypeError`, neither of
      which `create` catches. */
  function First(a: Arg): (r: Result<Option<string>, Error>)
  {
    match a
    case Absent => Success(None)
    case NoneValue => Failure(TypeError)
    case Str(s) => if s == "" then Failure(IndexError) else Success(Some(s[..1]))
    case List(items) => if items == [] then Failure(IndexError) else Success(items[0])
  }

  /** A supplied argument contributes only its first element: never more
      than one character of a string. */
  lemma FirstOfString(s: string)
    ensures First(Str(s)).Success? <==> s != ""
    ensures First(Str(s)).Success? ==> First(Str(s)).value == Some([s[0]])
  {
    if s != "" {
      assert s[..1] == [s[0]];
    }
  }

  /** The salt and the hash `create` settles on, or the exception it raises. */
  function Derive(sha512: Sha512, random: Random128, sessionKey: string, salt: Arg, hash: Arg)
    : (r: Result<(string, string), Error>)
  {
    var given :- First(salt);
    var s := if Truthy(given) then given.value else GenerateSalt(random);
    var givenHash :- First(hash);
    var h := if Truthy(givenHash) then givenHash.value else GenerateHash(sha512, sessionKey, s);
    if h != GenerateHash(sha512, sessionKey, s) then Failure(AssertionError) else Success((s, h))
  }

  /** Whatever `create` settles on is consistent: the hash is the one of the
      session key and the salt, and the salt is not empty. */
  lemma DeriveConsistent(sha512: Sha512, random: Random128, k: string, salt: Arg, hash: Arg)
    requires Derive(sha512, random, k, salt, hash).Success?
    ensures var (s, h) := Derive(sha512, random, k, salt, hash).value;
      s != "" && h == GenerateHash(sha512, k, s)
  {
  }

  /** A missing or falsy salt is replaced by a generated one. */
  lemma DeriveGeneratesSalt(sha512: Sha512, random: Random128, k: string, salt: Arg, hash: Arg)
    requires First(salt).Success? && !Truthy(First(salt).value)
    requires Derive(sha512, random, k, salt, hash).Success?
    ensures Derive(sha512, random, k, salt, hash).value.0 == GenerateSalt(random)
  {
  }

  /** A truthy supplied salt is kept as it is. */
  lemma DeriveKeepsSalt(sha512: Sha512, random: Random128, k: string, salt: Arg, hash: Arg)
    requires First(salt).Success? && Truthy(First(salt).value)
    requires Derive(sha512, random, k, salt, hash).Success?
    ensures Derive(sha512, random, k, salt, hash).value.0 == First(salt).value.value
  {
  }

  /** A missing or falsy hash is derived, and derivation alone never trips
      the assertion: only the salt argument can still make `create` fail. */
  lemma DeriveWithoutHash(sha512: Sha512, random: Random128, k: string, salt: Arg, hash: Arg)
    requires First(hash).Success? && !Truthy(First(hash).value)
    ensures Derive(sha512, random, k, salt, hash).Success? <==> First(salt).Success?
  {
  }

  /** A supplied hash that is not the one of the session key and the
      settled salt raises `AssertionError`. */
  lemma DeriveRejectsWrongHash(sha512: Sha512, random: Random128, k: string, salt: Arg, hash: Arg)
    requires First(salt).Success? && First(hash).Success? && Truthy(First(hash).value)
    ensures var given := First(salt).value;
      var s := if Truthy(given) then given.value else GenerateSalt(random);
      Derive(sha512, random, k, salt, hash).Success? <==> First(hash).value.value == GenerateHash(sha512, k, s)
    ensures var given := First(salt).value;
      var s := if Truthy(given) then given.value else GenerateSalt(random);
      First(hash).value.value != GenerateHash(sha512, k, s) ==>
        Derive(sha512, random, k, salt, hash) == Failure(AssertionError)
  {
  }

  /** A hash supplied as a plain string is cut to its first character, which
      is never a 128-character hash: such a call always fails. */
  lemma DeriveRejectsStringHash(sha512: Sha512, random: Random128, k: string, salt: Arg, h: string)
    requires h != ""
    ensures Derive(sha512, random, k, salt, Str(h)).Failure?
  {
    var given := First(salt);
    if given.Success? {
      var s := if Truthy(given.value) then given.value.value else GenerateSalt(random);
      assert |GenerateHash(sha512, k, s)| == 128;
      assert First(Str(h)).value.value != GenerateHash(sha512, k, s);
    }
  }

  /** `CallbackRedirectManager.create`. */
  method Create(store: Store, args: CreateArgs, sha512: Sha512, random: Random128, now: int)
    returns (r: Result<CallbackRedirect, Error>)
    modifies store
    ensures store.tokens == old(store.tokens) && store.codes == old(store.codes)
    ensures old(store.Valid()) ==> store.Valid()
    ensures r.Failure? ==> store.redirects == old(store.redirects)
    ensures args.sessionKey.None? ==> r == Failure(KeyError)
    ensures args.sessionKey.Some? ==>
      var d := Derive(sha512, random, args.sessionKey.value, args.salt, args.hashString);
      && (d.Failure? ==> r == Failure(d.error))
      && (d.Success? && args.token != null && args.token !in old(store.tokens) ==>
            r == Failure(ValueError))
      && (d.Success? && (args.token == null || args.token in old(store.tokens))
          && old(store.WithSessionKey(args.sessionKey.value)) != {} ==>
            r == Failure(IntegrityError))
      && (r.Success? ==>
            && d.Success?
            && fresh(r.value)
            && store.redirects == old(store.redirects) + {r.value}
            && r.value.salt == d.value.0 && r.value.hashString == d.value.1
            && r.value.sessionKey == args.sessionKey.value
            && r.value.url == args.url.GetOr("/")
            && r.value.allowAuthentication == args.allowAuthentication
            && r.value.token == args.token
            && r.value.created == now)
    ensures args.sessionKey.Some? ==>
      var d := Derive(sha512, random, args.sessionKey.value, args.salt, args.hashString);
      (d.Success? && old(store.WithSessionKey(args.sessionKey.value)) == {}
       && (args.token == null || args.token in old(store.tokens))) ==> r.Success?
  {
    if args.sessionKey.None? {
      return Failure(KeyError);
    }
    var sessionKey := args.sessionKey.value;
    var given := First(args.salt);
    if given.Failure? {
      return Failure(given.error);
    }
    var salt: string;
    if Truthy(given.value) {
      salt := given.value.value;
    } else {
      salt := GenerateSalt(random);
    }
    var givenHash := First(args.hashString);
    if givenHash.Failure? {
      return Failure(givenHash.error);
    }
    var hash: string;
    if Truthy(givenHash.value) {
      hash := givenHash.value.value;
    } else {
      hash := GenerateHash(sha512, sessionKey, salt);
    }
    if hash != GenerateHash(sha512, sessionKey, salt) {
      return Failure(AssertionError);
    }
    var record := new CallbackRedirect(salt, hash, args.url.GetOr("/"), sessionKey, now,
                                       args.allowAuthentication, args.token);
    var saved := store.AddRedirect(record);
    if saved.Fail? {
      return Failure(saved.error);
    }
    r := Success(record);
  }
}
