/** The database tables the modelled code reads and writes, as sets of
    records: the rows have no order, as Django querysets without `order_by`
    have none. The two constraints of the schema that matter here are kept
    as `Valid`: `session_key` is unique among pending logins, and a pending
    login refers only to a stored token. Deleting a token deletes the
    pending logins that refer to it (`on_delete=CASCADE`). */
module Store {
  import opened Wrappers
  import opened Errors
  import opened Identity
  import opened Models

  class Store {
    var tokens: set<AccessToken>
    var redirects: set<CallbackRedirect>
    var codes: set<CallbackCode>

    constructor ()
      ensures tokens == {} && redirects == {} && codes == {}
    {
      tokens, redirects, codes := {}, {}, {};
    }

    predicate Valid()
      reads this, redirects
    {
      && (forall r1, r2 :: r1 in redirects && r2 in redirects && r1.sessionKey == r2.sessionKey ==> r1 == r2)
      && (forall r :: r in redirects && r.token != null ==> r.token in tokens)
    }

    function WithSessionKey(k: string): set<CallbackRedirect>
      reads this
    {
      set r | r in redirects && r.sessionKey == k
    }

    function WithHash(h: string): set<CallbackRedirect>
      reads this
    {
      set r | r in redirects && r.hashString == h
    }

    /** The pending logins that survive deleting token `t`. */
    function RedirectsWithout(t: AccessToken): set<CallbackRedirect>
      reads this, redirects
    {
      set r | r in redirects && r.token != t
    }

    /** The users owning a stored token of character `characterId`. */
    function OwnersOfCharacter(characterId: int): set<UserId>
      reads this, tokens
    {
      set t | t in tokens && t.characterId == characterId && t.owner.Some? :: t.owner.value
    }

    /** `AccessToken.objects.filter(user__pk=user).filter(scopes__name__in=names)`
        as a set of records. */
    function TokensOf(user: UserId, names: set<string>): set<AccessToken>
      reads this, tokens
    {
      set t | t in tokens && t.owner == Some(user) && t.scopes * names != {}
    }

    /** `get` on a filter: the one match, `DoesNotExist` for none and
        `MultipleObjectsReturned` for several. */
    static method GetOne(matches: set<CallbackRedirect>) returns (r: Result<CallbackRedirect, Error>)
      ensures matches == {} <==> r == Failure(DoesNotExist)
      ensures r.Success? <==> exists m :: matches == {m}
      ensures r.Success? ==> matches == {r.value}
      ensures r.Failure? ==> r.error in {DoesNotExist, MultipleObjectsReturned}
    {
      if matches == {} {
        return Failure(DoesNotExist);
      }
      var m :| m in matches;
      if matches == {m} {
        r := Success(m);
      } else {
        assert exists other :: other in matches && other != m;
        r := Failure(MultipleObjectsReturned);
      }
    }

    /** Saving a new pending login: `ValueError` when its token is not a
        stored row (checked before the insert), `IntegrityError` when its
        session key is taken. */
    method AddRedirect(r: CallbackRedirect) returns (o: Outcome<Error>)
      requires r !in redirects
      modifies this
      ensures var unsaved := r.token != null && r.token !in old(tokens);
        var taken := old(WithSessionKey(r.sessionKey)) != {};
        && (unsaved ==> o == Fail(ValueError))
        && (!unsaved && taken ==> o == Fail(IntegrityError))
        && (unsaved || taken ==> redirects == old(redirects))
        && (!unsaved && !taken ==> o == Pass && redirects == old(redirects) + {r})
      ensures tokens == old(tokens) && codes == old(codes)
      ensures old(Valid()) ==> Valid()
    {
      if r.token != null && r.token !in tokens {
        return Fail(ValueError);
      }
      if WithSessionKey(r.sessionKey) != {} {
        return Fail(IntegrityError);
      }
      redirects := redirects + {r};
      o := Pass;
    }

    /** `token.delete()`, with the cascade to the pending logins. */
    method DeleteToken(t: AccessToken)
      modifies this
      ensures tokens == old(tokens) - {t}
      ensures redirects == old(RedirectsWithout(t))
      ensures codes == old(codes)
      ensures old(Valid()) ==> Valid()
      ensures old(Valid()) ==> redirects == Cascade(old(redirects), tokens)
    {
      ghost var before := redirects;
      redirects := RedirectsWithout(t);
      tokens := tokens - {t};
      if old(Valid()) {
        CascadeOfValid(before, old(tokens));
        CascadeShrink(before, old(tokens), tokens);
      }
    }

    /** `redirect.delete()`. */
    method DeleteRedirect(r: CallbackRedirect)
      modifies this
      ensures redirects == old(redirects) - {r}
      ensures tokens == old(tokens) && codes == old(codes)
      ensures old(Valid()) ==> Valid()
    {
      redirects := redirects - {r};
    }
  }

  /** The pending logins of `rs` that survive when only the tokens `ts` are
      left: deleting a token deletes the pending logins referring to it. */
  function Cascade(rs: set<CallbackRedirect>, ts: set<AccessToken>): set<CallbackRedirect>
    reads rs
  {
    set m | m in rs && (m.token == null || m.token in ts)
  }

  /** Where every pending login refers to a stored token or none, the
      cascade removes nothing. */
  lemma CascadeOfValid(rs: set<CallbackRedirect>, ts: set<AccessToken>)
    requires forall m :: m in rs && m.token != null ==> m.token in ts
    ensures Cascade(rs, ts) == rs
  {
  }

  /** Deleting more tokens later cascades as deleting them all at once. */
  lemma CascadeShrink(rs: set<CallbackRedirect>, ts: set<AccessToken>, us: set<AccessToken>)
    requires us <= ts
    ensures Cascade(Cascade(rs, ts), us) == Cascade(rs, us)
  {
  }

  /** With unique session keys a session has at most one pending login. */
  lemma AtMostOnePerSession(store: Store, k: string)
    requires store.Valid()
    ensures store.WithSessionKey(k) == {} || exists r :: store.WithSessionKey(k) == {r}
  {
    if store.WithSessionKey(k) != {} {
      var r :| r in store.WithSessionKey(k);
      assert store.WithSessionKey(k) == {r};
    }
  }
}
