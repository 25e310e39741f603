/** The exceptions the modelled code raises or lets escape, as one datatype.
    eve_sso/models.py and eve_sso/crest.py each declare their own `TokenError`
    hierarchy; only the one of models.py is ever caught (by the sweeps and the
    decorator), and the model keeps them apart through `IsTokenError`. */
module Errors {

  datatype Error =
    // eve_sso/models.py (subclasses of its TokenError)
    | TokenInvalid
    | TokenExpired
    | NotRefreshable
    // eve_sso/crest.py
    | InvalidAuthentication
    | CrestTokenInvalid
    // requests: `raise_for_status` on a 4xx or 5xx reply
    | HttpError(status: int)
    // a `Scope.objects.get(name=...)` for an unknown scope name
    | ScopeDoesNotExist(name: string)
    // Django ORM
    | IntegrityError
    | DoesNotExist
    | MultipleObjectsReturned
    // saving a record whose foreign key names an unsaved (or deleted) row
    | ValueError
    // Python built-ins
    | KeyError
    | IndexError
    | TypeError
    | AttributeError
    | AssertionError
    | RuntimeError
    // `raise HttpResponseForbidden(...)` in the callback view: a response
    // object raised as if it were an exception
    | ForbiddenRaised

  /** What `except TokenError` (the class of eve_sso/models.py) catches. */
  predicate IsTokenError(e: Error) {
    e.TokenInvalid? || e.TokenExpired? || e.NotRefreshable?
  }
}
