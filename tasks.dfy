/** eve_sso/tasks.py: the periodic sweeps over the store. The clock is read
    once per sweep; the scheduling itself is not modelled. */
module Tasks {
  import opened Wrappers
  import opened Errors
  import opened Http
  import opened Models
  import opened Store

  /** The pending logins created after `cutoff`. */
  function YoungerRedirects(rs: set<CallbackRedirect>, cutoff: int): set<CallbackRedirect> {
    set r | r in rs && !(r.created <= cutoff)
  }

  /** The callback codes created after `cutoff`. */
  function YoungerCodes(cs: set<CallbackCode>, cutoff: int): set<CallbackCode> {
    set c | c in cs && !(c.created <= cutoff)
  }

  /** Sweeping with one cutoff and then another keeps what is younger than
      both: a second sweep at the same time changes nothing. */
  lemma YoungerRedirectsTwice(rs: set<CallbackRedirect>, c1: int, c2: int)
    ensures YoungerRedirects(YoungerRedirects(rs, c1), c2)
         == YoungerRedirects(rs, if c1 < c2 then c2 else c1)
    ensures YoungerRedirects(YoungerRedirects(rs, c1), c1) == YoungerRedirects(rs, c1)
  {
  }

  /** A record survives exactly when it is younger than `max_age` seconds:
      one exactly `max_age` old is deleted. */
  lemma SweepAgeBoundary(r: CallbackRedirect, rs: set<CallbackRedirect>, now: int, maxAge: int)
    requires r in rs
    ensures r in YoungerRedirects(rs, now - maxAge) <==> now - r.created < maxAge
    ensures r.created == now - maxAge ==> r !in YoungerRedirects(rs, now - maxAge)
  {
  }

  /** `cleanup_callbackredirect(max_age=300)`. */
  method CleanupCallbackRedirect(store: Store, now: int, maxAge: int := 300)
    modifies store
    ensures store.redirects == YoungerRedirects(old(store.redirects), now - maxAge)
    ensures store.tokens == old(store.tokens) && store.codes == old(store.codes)
    ensures old(store.Valid()) ==> store.Valid()
  {
    store.redirects := YoungerRedirects(store.redirects, now - maxAge);
  }

  /** `cleanup_callbackcode(max_age=300)`. */
  method CleanupCallbackCode(store: Store, now: int, maxAge: int := 300)
    modifies store
    ensures store.codes == YoungerCodes(old(store.codes), now - maxAge)
    ensures store.tokens == old(store.tokens) && store.redirects == old(store.redirects)
    ensures old(store.Valid()) ==> store.Valid()
  {
    store.codes := YoungerCodes(store.codes, now - maxAge);
  }

  /** What `cleanup_accesstoken` does with one record. */
  datatype Sweep = Keep | Remove | Renew | Abort(error: Error)

  function SweepStep(config: Config, provider: Request -> Reply, now: int,
                     created: int, refreshToken: Option<string>): Sweep
  {
    if !Expired(created, config.tokenValidDuration, now) then Keep
    else if !CanRefresh(refreshToken) then Remove
    else
      var res := RefreshResult(config, provider, refreshToken);
      if res.Success? then Renew
      else if IsTokenError(res.error) then Remove
      else Abort(res.error)
  }

  /** Fresh records are kept, expired ones without a refresh token removed,
      and an expired refreshable one is renewed or removed as its refresh
      succeeds or raises a `TokenError`; any other exception ends the sweep. */
  lemma SweepStepCases(config: Config, provider: Request -> Reply, now: int,
                       created: int, refreshToken: Option<string>)
    ensures var step := SweepStep(config, provider, now, created, refreshToken);
      && (step == Keep <==> !Expired(created, config.tokenValidDuration, now))
      && (Expired(created, config.tokenValidDuration, now) && !CanRefresh(refreshToken) ==> step == Remove)
      && (step == Renew <==> Expired(created, config.tokenValidDuration, now)
                             && RefreshResult(config, provider, refreshToken).Success?)
      && (step.Abort? ==> !IsTokenError(step.error)
                          && RefreshResult(config, provider, refreshToken) == Failure(step.error))
  {
    if Expired(created, config.tokenValidDuration, now) && !CanRefresh(refreshToken) {
      RefreshWithoutRefreshToken(config, provider, refreshToken);
    }
  }

  /** A record still stored after its step of the sweep was fresh or has
      been renewed at `now`; with a positive validity it is then not
      expired. */
  lemma SweepSurvivor(after: Snapshot, before: Snapshot, refreshToken: Option<string>,
                      config: Config, provider: Request -> Reply, now: int)
    requires Swept(true, after, before, refreshToken, config, provider, now)
    ensures SweepStep(config, provider, now, before.created, refreshToken) in {Keep, Renew}
    ensures Expired(before.created, config.tokenValidDuration, now) ==>
      SweepStep(config, provider, now, before.created, refreshToken) == Renew && after.created == now
    ensures config.tokenValidDuration > 0 ==> !Expired(after.created, config.tokenValidDuration, now)
  {
  }

  /** A record that held `before`, as one completed step of the sweep leaves
      it: still stored (`kept`) and now holding `after`. */
  predicate Swept(kept: bool, after: Snapshot, before: Snapshot, refreshToken: Option<string>,
                  config: Config, provider: Request -> Reply, now: int)
  {
    match SweepStep(config, provider, now, before.created, refreshToken)
    case Keep => kept && after == before
    case Remove => !kept
    case Renew =>
      kept && after == before.(created := now, accessToken := RefreshResult(config, provider, refreshToken).value)
    case Abort(_) => false
  }

  /** One record of `cleanup_accesstoken`. */
  method SweepOne(store: Store, t: AccessToken, config: Config, provider: Request -> Reply, now: int)
    returns (r: Outcome<Error>)
    requires store.Valid() && t in store.tokens
    modifies store, t
    ensures store.Valid() && store.codes == old(store.codes)
    ensures store.tokens == old(store.tokens) || store.tokens == old(store.tokens) - {t}
    ensures store.redirects == Cascade(old(store.redirects), store.tokens)
    ensures r.Pass? ==> Swept(t in store.tokens, Snap(t), old(Snap(t)), t.refreshToken, config, provider, now)
    ensures r.Fail? ==>
      && SweepStep(config, provider, now, old(t.created), t.refreshToken) == Abort(r.error)
      && store.tokens == old(store.tokens)
  {
    CascadeOfValid(store.redirects, store.tokens);
    r := Pass;
    if t.IsExpired(config, now) {
      if CanRefresh(t.refreshToken) {
        var outcome, _ := t.Refresh(config, provider, now);
        if outcome.Fail? {
          if IsTokenError(outcome.error) {
            store.DeleteToken(t);
          } else {
            r := outcome;
          }
        }
      } else {
        store.DeleteToken(t);
      }
    }
  }

  /** `cleanup_accesstoken`: every record is looked at once, in no
      particular order; an exception other than a `TokenError` ends the
      sweep and leaves the records not yet looked at untouched. */
  method CleanupAccessToken(store: Store, config: Config, provider: Request -> Reply, now: int)
    returns (r: Outcome<Error>)
    requires store.Valid()
    modifies store, store.tokens
    ensures store.Valid()
    ensures store.tokens <= old(store.tokens) && store.codes == old(store.codes)
    ensures store.redirects == Cascade(old(store.redirects), store.tokens)
    ensures r.Pass? ==> forall t :: t in old(store.tokens) ==> Swept(t in store.tokens, Snap(t), old(Snap(t)), t.refreshToken, config, provider, now)
    ensures r.Pass? && config.tokenValidDuration > 0 ==> forall t :: t in store.tokens ==> !t.IsExpired(config, now)
    ensures r.Fail? ==>
      exists t :: t in old(store.tokens) && SweepStep(config, provider, now, old(t.created), t.refreshToken) == Abort(r.error)
    ensures r.Fail? ==> forall t :: t in old(store.tokens) ==>
      || Swept(t in store.tokens, Snap(t), old(Snap(t)), t.refreshToken, config, provider, now)
      || (t in store.tokens && Snap(t) == old(Snap(t)))
      || SweepStep(config, provider, now, old(t.created), t.refreshToken) == Abort(r.error)
  {
    var todo := store.tokens;
    CascadeOfValid(store.redirects, store.tokens);
    while todo != {}
      invariant todo <= old(store.tokens)
      invariant store.tokens <= old(store.tokens) && store.codes == old(store.codes)
      invariant store.redirects == Cascade(old(store.redirects), store.tokens)
      invariant store.Valid()
      invariant forall t :: t in todo ==> t in store.tokens && Snap(t) == old(Snap(t))
      invariant forall t :: t in old(store.tokens) && t !in todo ==> Swept(t in store.tokens, Snap(t), old(Snap(t)), t.refreshToken, config, provider, now)
      decreases |todo|
    {
      var t :| t in todo;
      todo := todo - {t};
      ghost var left := store.tokens;
      r := SweepOne(store, t, config, provider, now);
      CascadeShrink(old(store.redirects), left, store.tokens);
      if r.Fail? {
        return;
      }
    }
    r := Pass;
    if config.tokenValidDuration > 0 {
      forall t | t in store.tokens
        ensures !t.IsExpired(config, now)
      {
        SweepSurvivor(Snap(t), old(Snap(t)), t.refreshToken, config, provider, now);
      }
    }
  }
}
