# eve_sso in Dafny

A model of the core of `eve_sso`, a Django application that logs users in
through EVE Online's single sign-on (an OAuth 2 authorization-code flow) and
keeps the provider's access tokens, and a set of proofs about that model.
The model covers:

- **Settings.** The `EVE_SSO_*` settings with their defaults, and the HTTP
  Basic credential `AUTH_TOKEN` built from the client id and secret.
- **Provider calls.** The three calls of `CrestTokenAPI`: exchanging an
  authorization code, verifying a token and refreshing a token. Each call
  maps the reply's status code to its exceptions, and its reply is parsed
  into `TokenResponse` or `VerifyResponse`.
- **`AccessToken`.** Its expiry, `can_refresh`, the `token` property,
  `refresh()`, and the scope loop of `CallbackCode.exchange`.
- **`CallbackRedirect`.** A pending login: its salted SHA-512 `hash_string`,
  `generate_salt`, `validate`, and the manager's `create`, which settles the
  salt and the hash.
- **The authentication backend.** It finds or creates the local user for a
  token and makes that user the token's owner.
- **The views.** `sso_redirect`, `receive_callback` and `login_view`.
- **The decorator.** `token_required`, which hands a view the tokens it
  needs, or sends the browser to the provider to get new ones.
- **The periodic sweeps.** They delete old pending logins and callback
  codes, and refresh or delete expired tokens.

How the model is laid out:

- **One module per source file.** `AppSettings`, `Crest`, `Models`,
  `Managers`, `Backends`, `Views`, `Decorators` and `Tasks`.
- **Helper modules.**
  - `Text`: Python's `str.split()` and `' '.join`.
  - `Utf8`, `Base64` and `Hex`: the encodings the source uses.
  - `Http`: requests, replies and JSON values.
  - `Errors`: the exceptions.
  - `Store`: the database tables, with the schema constraints that matter
    here.
- **Records updated in place are classes.** `AccessToken`,
  `CallbackRedirect` and `Store` are classes whose methods change their
  fields.
- **Everything else is a pure function or a datatype.** This covers parsing,
  hashing, the status mappings and the backend's decisions.
- **Outside effects are parameters.** The provider is a function from the
  request sent to the reply received. SHA-512 is a function onto 64-byte
  digests. The randomness of `uuid4` is 16 bytes. The clock is one reading
  `now` per operation.

Where the code and its documentation disagree, the model follows the code:

- `refresh()` raises `TokenInvalidError` on 400 and 403 and sets no
  "invalid" flag.
- `receive_callback` does not delete the `CallbackRedirect` it used.
- Expiry is `created + EVE_SSO_TOKEN_VALID_DURATION`, an integer number of
  seconds.

`CallbackRedirect.objects.get_or_none`, used at `eve_sso/views.py:69`, is
defined in none of the modelled files. It is modelled as Django's `get` with
`DoesNotExist` turned into `None`, so several matching records still raise
`MultipleObjectsReturned`.

`eve_sso/models.py:5` imports `EVE_SSO_CLIENT_ID`, `EVE_SSO_CLIENT_SECRET`
and `EVE_SSO_TOKEN_VALID_DURATION`, which `eve_sso/app_settings.py` does not
define at module level. The model takes them as the `Models.Config` value.

## Model

| member | source | states |
|---|---|---|
| Text.SplitWords | eve_sso/crest.py:76 | every word `str.split()` yields is non-empty and holds no whitespace |
| Text.SplitEmptyIff | eve_sso/crest.py:76 | `split()` yields no words exactly when the string is all whitespace |
| Text.SplitJoin | eve_sso/views.py:51 | splitting the space-join of a list of words gives the list back |
| Text.SplitJoinSplit | eve_sso/views.py:33-34 | joining the words of a split string and splitting again gives the same words |
| Text.SplitKeepsCharacters | eve_sso/crest.py:76 | the words of a split, concatenated, are the string with its whitespace removed |
| Utf8.Encode | eve_sso/models.py:215-216 | a string never has fewer UTF-8 bytes than characters |
| Utf8.EncodeAppend | eve_sso/models.py:215-217 | the UTF-8 encoding of a concatenation is the concatenation of the encodings |
| Utf8.DecodeEncode | eve_sso/app_settings.py:58-59 | decoding the UTF-8 encoding of a string gives the string back |
| Utf8.EncodeAscii | eve_sso/app_settings.py:59 | an ASCII string encodes to one byte per character, equal to its code |
| Base64.EncodeLength | eve_sso/app_settings.py:59 | `b64encode` of n bytes has 4 * ceil(n / 3) characters |
| Base64.EncodeAlphabet | eve_sso/app_settings.py:59 | every character of the encoding is from the alphabet of section 4 of RFC 4648, except for `=` padding in the last two positions |
| Base64.DecodeEncode | eve_sso/app_settings.py:59 | decoding the encoding gives the bytes back |
| Hex.EncodeShape | eve_sso/models.py:217 | `hexdigest` of n bytes is 2n lowercase hex digits |
| Hex.EncodeAt | eve_sso/models.py:224 | characters 2i and 2i+1 of the hex string are the high and the low nibble of byte i |
| Hex.DecodeEncode | eve_sso/models.py:217 | reading the hex digits back gives the bytes |
| Hex.EncodeInjective | eve_sso/models.py:217 | two hex strings are equal exactly when the bytes are |
| Http.RaiseForStatus | eve_sso/crest.py:110 | `raise_for_status` raises exactly for 4xx and 5xx statuses, with that status |
| Http.Lookup | eve_sso/crest.py:46 | `json[key]` gives the value when the key is present and `KeyError` otherwise |
| AppSettings.WithDefaults | eve_sso/app_settings.py:15-37 | with only the three required values given, every other setting has its documented default |
| AppSettings.AuthTokenDecodes | eve_sso/app_settings.py:56-60 | `AUTH_TOKEN` starts with `Basic `, and the rest decodes (base64, then UTF-8) to `CLIENT_ID:CLIENT_SECRET` |
| AppSettings.AuthTokenShape | eve_sso/app_settings.py:59-60 | `AUTH_TOKEN` has length 6 + 4 * ceil(n / 3) for n bytes of credentials, and its encoded part is a well-formed base64 string |
| AppSettings.AuthTokenInjective | eve_sso/app_settings.py:56-60 | equal `AUTH_TOKEN`s come from equal `CLIENT_ID:CLIENT_SECRET` strings |
| Crest.Lifetime | eve_sso/crest.py:46-48 | the lifetime is `expires_in` when no cap is set; a set cap only shortens it, to the cap or to `expires_in` |
| Crest.TokenResponseFromJson | eve_sso/crest.py:44-57 | a missing `expires_in` raises `KeyError` and a non-number raises `TypeError`; parsing succeeds exactly when `expires_in` is a number and all three token fields are present; the result copies the fields and expires `now` + lifetime |
| Crest.VerifyResponseFromJson | eve_sso/crest.py:68-77 | parsing succeeds exactly when the five fields are present and `Scopes` is absent or a string; the result copies the fields and holds the scope set |
| Crest.ScopeSetEmpty | eve_sso/crest.py:76 | the scope set is empty exactly when `Scopes` is absent or all whitespace |
| Crest.ScopeSetOfJoined | eve_sso/crest.py:76 | a space-joined list of scope names gives the set of those names |
| Crest.ScopeSetWords | eve_sso/crest.py:76 | every scope name is non-empty and whitespace-free |
| Crest.ExchangeStatus | eve_sso/crest.py:96-111 | the exchange raises `InvalidAuthentication` exactly on 400 and 401, an HTTP error on any other 4xx or 5xx, and otherwise parses the reply |
| Crest.VerifyStatus | eve_sso/crest.py:113-120 | verification raises `TokenInvalidError` exactly on 400, 401 and 403, an HTTP error on any other 4xx or 5xx, and otherwise parses the reply |
| Crest.RefreshStatus | eve_sso/crest.py:122-140 | refresh raises `InvalidAuthentication` exactly on 400 and 401, `TokenInvalidError` exactly on 403, an HTTP error on any other 4xx or 5xx, and otherwise parses the reply |
| Crest.StatusMappingsCompared | eve_sso/crest.py:105-140 | on the same status, refresh and verify differ only on 400 and 401; refresh and exchange differ only on 403 |
| Models.AuthStringIsAuthToken | eve_sso/models.py:31-36 | `generate_auth_string` equals the `AUTH_TOKEN` setting for the same id and secret |
| Models.RefreshWithoutRefreshToken | eve_sso/models.py:170-187 | without a refresh token, `refresh()` raises `NotRefreshableTokenError` and sends nothing |
| Models.RefreshSuccess | eve_sso/models.py:170-184 | `refresh()` succeeds exactly when there is a refresh token, the reply status is not 4xx or 5xx, and the body has `access_token`; that value becomes the token |
| Models.RefreshTokenErrors | eve_sso/models.py:170-187 | `refresh()` raises a `TokenError` exactly when there is no refresh token or the reply is 400 or 403; its only other failures are HTTP errors and `KeyError` |
| Models.AccessToken.Refresh | eve_sso/models.py:166-187 | sends exactly the refresh POST when refreshable; the outcome is the refresh result; the access token changes only on success; `created` is stamped once the status checks pass, even if `access_token` is then missing |
| Models.AccessToken.Token | eve_sso/models.py:154-164 | a fresh token is answered unchanged with nothing sent; an expired token that cannot refresh raises `TokenExpiredError`; otherwise the answer and the new state are those of `refresh()` |
| Models.AccessToken.AttachScopes | eve_sso/models.py:97-100 | each word of `Scopes` up to the first unknown name is added; an unknown name raises `DoesNotExist` after the earlier ones were added; a missing `Scopes` adds nothing; other fields are untouched |
| Models.FirstUnknown | eve_sso/models.py:97-100 | the position where the scope loop stops: every earlier word is known, and the word there is not |
| Models.AttachAllScopes | eve_sso/models.py:97-100 | the scope loop completes exactly when every word is a known scope, and it then adds every word |
| Models.GenerateHash | eve_sso/models.py:210-217 | the hash is 128 lowercase hex digits, the length of `hash_string` |
| Models.GenerateHashEqual | eve_sso/models.py:210-217 | two hashes are equal exactly when the two SHA-512 digests are |
| Models.GenerateHashOfConcatenation | eve_sso/models.py:215-217 | the hash depends only on the concatenation of session key and salt |
| Models.GenerateSalt | eve_sso/models.py:219-224 | the salt is 32 lowercase hex digits, the length of `salt`, with version digit `4` and a variant digit in `89ab` |
| Models.CallbackRedirect.Validate | eve_sso/models.py:226-242 | `validate` raises `AttributeError` exactly when the hash or the salt is empty |
| Models.CallbackRedirect.ValidateAccepts | eve_sso/models.py:230-242 | a record accepts a request exactly when `state` is its hash and the request's session key, hashed with its salt, gives that hash |
| Models.CallbackRedirect.ValidateOwnSession | eve_sso/models.py:226-242 | a record made for a session accepts that session's callback carrying its hash |
| Models.CallbackRedirect.ValidateOtherSession | eve_sso/models.py:226-242 | a record refuses a session whose digest differs, whatever `state` it sends |
| Store.Store.GetOne | eve_sso/decorators.py:33 | `get` answers the one match; `DoesNotExist` exactly for no match; otherwise `MultipleObjectsReturned` |
| Store.Store.AddRedirect | eve_sso/models.py:199-203 | saving raises `ValueError` when the record names a token that is not stored, else `IntegrityError` when the session key is taken, and otherwise adds the record; uniqueness is kept |
| Store.Store.DeleteToken | eve_sso/models.py:202-203 | deleting a token also deletes the pending logins that refer to it, and only those; the schema constraints are kept |
| Store.Store.DeleteRedirect | eve_sso/decorators.py:35 | deleting a pending login removes only it |
| Store.AtMostOnePerSession | eve_sso/models.py:199-200 | with unique session keys a session has at most one pending login |
| Managers.FirstOfString | eve_sso/managers.py:16 | `[0]` of a supplied string is its first character, and fails on an empty one |
| Managers.DeriveConsistent | eve_sso/managers.py:15-25 | whatever `create` settles on has a non-empty salt and the hash of the session key with that salt |
| Managers.DeriveGeneratesSalt | eve_sso/managers.py:15-19 | a missing or falsy salt is replaced by a generated one |
| Managers.DeriveKeepsSalt | eve_sso/managers.py:15-19 | a truthy supplied salt is kept |
| Managers.DeriveWithoutHash | eve_sso/managers.py:20-25 | with no hash supplied, `create` fails only on the salt argument |
| Managers.DeriveRejectsWrongHash | eve_sso/managers.py:25 | a supplied hash passes exactly when it is the hash of the session key and the settled salt, and otherwise raises `AssertionError` |
| Managers.DeriveRejectsStringHash | eve_sso/managers.py:21-25 | a hash given as a plain string is cut to one character and always fails |
| Managers.Create | eve_sso/managers.py:8-26 | a missing session key raises `KeyError`; the derivation's failure is raised; an unsaved token raises `ValueError`, a taken session key `IntegrityError`; otherwise a fresh record with the settled salt and hash is stored |
| Tasks.YoungerRedirectsTwice | eve_sso/tasks.py:13-14 | two sweeps keep what is younger than both cutoffs; a second sweep with the same cutoff changes nothing |
| Tasks.SweepAgeBoundary | eve_sso/tasks.py:13-14 | a record survives exactly when it is younger than `max_age`; one exactly `max_age` old is deleted |
| Tasks.CleanupCallbackRedirect | eve_sso/tasks.py:8-14 | only pending logins created after `now - max_age` survive; other tables are unchanged |
| Tasks.CleanupCallbackCode | eve_sso/tasks.py:17-23 | only callback codes created after `now - max_age` survive; other tables are unchanged |
| Tasks.SweepStepCases | eve_sso/tasks.py:30-38 | fresh tokens are kept; expired ones without a refresh token are deleted; expired refreshable ones are renewed on success and deleted on a `TokenError`; any other exception ends the sweep |
| Tasks.SweepSurvivor | eve_sso/tasks.py:31-36 | a token that survives its sweep step was kept or renewed, an expired one renewed at `now`; with a positive validity the survivor is not expired at `now` |
| Tasks.SweepOne | eve_sso/tasks.py:31-38 | one token is kept, deleted or renewed as its step says, or the step's exception is raised; the pending logins left are those whose token is still stored |
| Tasks.CleanupAccessToken | eve_sso/tasks.py:26-38 | after a completed sweep every token was kept, deleted or renewed as its step says, and with a positive validity no stored token is expired; an aborted sweep raises the exception of some token's refresh and leaves every other token handled or untouched; the pending logins left are exactly those whose token is still stored |
| Backends.Sole | eve_sso/backends.py:51-55 | a user is found exactly when one user owns the character's tokens, and it is that user |
| Backends.DecidePrefersOwner | eve_sso/backends.py:19-38 | the owner is kept, else the found user, else the created one, with no user only when all three are missing; as written, the decision fails exactly on the creation path and agrees otherwise |
| Backends.FindUserCases | eve_sso/backends.py:40-55 | `find_user` answers the configured function when set, and otherwise the only owner of the character's tokens; as written the configured function is `AUTH_USER_FROM_TOKEN_FUNC` |
| Backends.CreateUserGate | eve_sso/backends.py:57-62 | a user is created only when `AUTH_CREATE_UNKNOWN_USER` and `AUTH_USER_FROM_TOKEN_FUNC` are both set, and then it is the function's answer |
| Backends.AsWrittenNeverLogs | eve_sso/backends.py:25-31 | as written, the log line is never reached: when `find_user` finds nobody, `create_user` creates nobody |
| Backends.AsWrittenIgnoresCreateGate | eve_sso/backends.py:45-47 | as written, with user creation disabled the creating function's user still becomes the owner; the corrected backend gives none |
| Backends.LogLineRaises | eve_sso/backends.py:31 | as written, a created user makes the log line raise `AttributeError`; corrected, the user is returned |
| Backends.AuthenticateAsWritten | eve_sso/backends.py:12-38 | `None` for no token; otherwise the as-written decision, with the owner set to its user; other fields untouched |
| Backends.Authenticate | eve_sso/backends.py:12-38 | `None` for no token; otherwise the owner, else the found user, else the created one, which becomes the owner; a token with an owner is left unchanged |
| Views.ScopeParamOfWords | eve_sso/views.py:33-51 | a scope string passed to `sso_redirect` reaches the `scope` parameter with the same words |
| Views.ScopeParamOfNames | eve_sso/views.py:51 | a list of scope names is sent as a `scope` parameter that splits back into that list |
| Views.TargetUrl | eve_sso/views.py:41 | the record's URL is `return_to` when truthy, else the request's full path |
| Views.SsoRedirect | eve_sso/views.py:27-54 | fails with `IntegrityError` exactly when the session already has a pending login; otherwise stores one fresh tokenless record with a generated salt and its hash, and redirects to the login URL with the five parameters; that record accepts the session's own callback |
| Views.AdmitAccepts | eve_sso/views.py:63-72 | a callback gets past the checks exactly when code and state are non-empty, exactly one record has `state` as its hash, and that record validates the session |
| Views.AdmitMalformed | eve_sso/views.py:66-72 | a bad request is answered exactly when code or state is missing or empty; a state naming no record is refused |
| Views.RedirectThenCallback | eve_sso/views.py:27-72 | the record made by `sso_redirect` admits the provider's callback to the same session, whatever the code |
| Views.Lookup | eve_sso/views.py:63-72 | looking up the record by `state` and validating it gives the admission the checks define |
| Views.Conclude | eve_sso/views.py:87-115 | the answer, the logged-in user, the owner and the deletion are those `Views.Concluded` relates to the request: with authentication allowed and no user logged in, the backend's user becomes the owner; no user or an inactive user is forbidden; an active user is logged in and redirected, and a token that cannot refresh is deleted; a logged-in user who is not the owner raises `RuntimeError`; otherwise the view redirects to the record's URL. Only that token may be deleted, with the pending logins naming it |
| Views.ReceiveCallback | eve_sso/views.py:57-115 | a bad request, a refusal and a lookup exception each leave the store and every token alone; an admitted callback resolves a token only when the record has none and stores it in the record; the answer, login, owner and deletion are then exactly those `Views.Concluded` gives for that token; the only token that may be deleted or changed is that one, with the pending logins naming it, and no other record's token changes |
| Views.ReturnTo | eve_sso/views.py:124-125 | `return_to` is the redirect field of the query when non-empty, else `LOGIN_REDIRECT_URL` |
| Views.LoginView | eve_sso/views.py:118-134 | a logged-in user is redirected to `return_to` and nothing is stored; otherwise `IntegrityError` exactly when the session has a pending login, with nothing stored, and else one new tokenless record for the session with a generated salt and its hash, authentication allowed and `return_to` as the target, and a provider redirect with `LOGIN_SCOPES` |
| Decorators.ClaimPending | eve_sso/decorators.py:32-39 | exactly the session's pending login that holds a token is deleted, and a token is answered exactly when there was one, namely its token; a tokenless pending login stays |
| Decorators.CheckOne | eve_sso/decorators.py:49-52 | one token is kept, renewed or deleted as a sweep step says, or the step's exception is raised; the pending logins left are those whose token is still stored |
| Decorators.Prune | eve_sso/decorators.py:48-52 | every candidate token is kept, renewed or deleted as its step says, unless an exception other than a `TokenError` ends the loop; then each candidate was handled as its step says, or is untouched, or is the one whose step raised; only candidates are deleted, and the pending logins left are those whose token is still stored |
| Decorators.PrunedTokens | eve_sso/decorators.py:48-53 | after the loop, the user's tokens with a requested scope are exactly the candidates that passed the check, and a candidate stays stored exactly when it passed |
| Decorators.StoredTokens | eve_sso/decorators.py:48-54 | the user's tokens with a requested scope, re-queried after the loop, are exactly those that were there and passed the check; each candidate was kept, renewed in place (new `created` and access token) or deleted as its step says, or on a failure left untouched or was the one that raised; every other token is neither deleted nor changed; the pending logins left are those whose token is still stored; a failure is the exception of some candidate's step |
| Decorators.ChooseProvider | eve_sso/decorators.py:36-59 | the provider is asked exactly when `new` is requested and no finished login is claimed, or a logged-in user has no usable token; the claimed token is handed over exactly with `new` and a claim; the login page exactly without `new` for an anonymous request |
| Decorators.AskProvider | eve_sso/decorators.py:58-59 | `sso_redirect` for the full path without authentication: `IntegrityError` exactly when the session has a pending login, and otherwise one new tokenless record and the provider redirect |
| Decorators.StoredOrProvider | eve_sso/decorators.py:47-59 | for a logged-in user: the view gets exactly the checked tokens with a requested scope when there are any, else the provider is asked; each candidate was handled as its step says (or, on a failure, untouched or the one that raised), and no other token changes; a failure is `IntegrityError` with no usable token left, or some candidate's exception |
| Decorators.Proceed | eve_sso/decorators.py:41-59 | once the claim is handled: with `new` the provider is asked; without it an anonymous request goes to the login page and a logged-in one to `Decorators.StoredOrProvider`; with `new` or without a user no token changes |
| Decorators.TokenRequired | eve_sso/decorators.py:11-59 | every success has the kind `Decorators.Choose` gives for the claim, `new`, the login and whether a usable token is left; with `new`, a claimed token is handed to the view alone; without `new`, an anonymous request goes to the login page and a view gets exactly the user's checked tokens with a requested scope; a failure is `IntegrityError` from a leftover tokenless pending login on the provider route, or a candidate's exception; each candidate was handled as its step says (or, on a failure, untouched or the one that raised), and every other token, every token with `new` or without a user, is neither deleted nor changed; the pending logins left are the old ones less the claimed one and those whose token was deleted, plus, on the provider route, one new tokenless record for the full path |

## Left out

- HTTP transport and JSON text: a reply arrives as a decoded JSON map. `urlencode`, `urljoin` and Django's `redirect` become the `ProviderLogin` and `Redirect` answers.
- The `Content-Type` headers of `refresh()` and `exchange` are not modelled; a request carries only its `Authorization` value and its fields.
- Creating a session when it does not exist is not modelled; the session key is a parameter.
- Logging, apart from the `___name__` log line, which raises.
- SHA-512 and `uuid4` randomness are parameters: any function onto 64-byte digests, and any 16 bytes.
- The clock is read once per operation. `cleanup_accesstoken` and `refresh()` read it separately in the source; the model reads it once.
- `get_or_create_from_code` is not part of the modelled files. It is the `resolved` parameter of `Views.ReceiveCallback`, a token already stored. Its exceptions are not modelled: in the source one propagates out of `receive_callback` at `eve_sso/views.py:82` and the record's `token` stays null. Its own effects on the store (creating or updating the token and its scopes) are not modelled either.
- `CallbackCode.exchange` is left out apart from its scope loop (`Models.AccessToken.AttachScopes`). Its two HTTP calls and the record it creates go through code and settings this model does not carry.
- Django's `authenticate` and `login` dispatch is left out. `receive_callback` calls `Backends.Authenticate` directly, and logging in is the `loggedIn` output. `is_active` is the `active` parameter.
- The wrapped view of `token_required` is left out; calling it is the answer `ViewCalled`. An `AttributeError` the view raises on the `new` path (swallowed at `eve_sso/decorators.py:38`) is not modelled.
- `redirect_to_login` is left out; it becomes `LoginRedirect` with the full path.
- Querysets are sets. Duplicate rows from the scope join at `eve_sso/decorators.py:48` are not modelled: a token with several requested scopes is checked once.
- Crest.TokenResponseFromJson: a float `expires_in` is treated as `TypeError`. Python accepts floats there, but the model has integer JSON numbers only.
- `max_length` limits and the uniqueness of `access_token` are not modelled. The proofs show that the generated salt and hash fit their limits exactly.
- `Models.Config` and `AppSettings.Settings` are separate parameters, since `eve_sso/models.py:5` names settings that `eve_sso/app_settings.py` does not define.
- `PURGE_TOKENS_ON_ACCOUNT_CHANGE` and `PORTRAIT_URL_TEMPLATE` are read by none of the modelled code.
- The message strings and their translations are left out.
- The Celery schedules, admin, URL configuration, migrations and `setup.py` are left out.
- `require_http_methods(['GET'])` on `receive_callback` belongs to Django's routing and is left out.
- Views.Conclude and Views.ReceiveCallback use the corrected backend, `Backends.Authenticate`, with both corrections of "## Findings"; the as-written backend is modelled separately as `Backends.AuthenticateAsWritten` and is not wired into the views.
- The schema is taken as the code uses it. One `owner` field stands for both the `user` foreign key of `eve_sso/models.py:119` (filtered as `user__pk` at `eve_sso/decorators.py:48` and `eve_sso/decorators.py:53`) and the `owner` that `eve_sso/backends.py:20`, `eve_sso/backends.py:35-36` and `eve_sso/views.py:106` read and write. The reverse name `tokens__character_id` of `eve_sso/backends.py:51` is taken to reach a user's tokens. `CallbackRedirect.allow_authentication` comes from `eve_sso/migrations/0005_add_fields_to_accesstoken.py:33-36`, although the class at `eve_sso/models.py:196-203` does not declare it. With the classes exactly as declared, `token.owner` and `create(allow_authentication=...)` would raise; the model does not capture that. The `expires`, `updated` and `invalid` fields added by that migration are not modelled.
- `Tasks.CleanupCallbackCode` keeps a `CallbackCode` table, as `eve_sso/tasks.py:17-23` queries it, although `eve_sso/migrations/0004_drop_callbackcode.py:16-18` deletes that model; against the migrated schema the source task would fail, which the model does not capture.
- Strings are sequences of Unicode scalar values, so a lone surrogate cannot occur. A Python `str` can hold one, and `generate_hash` (`eve_sso/models.py:215-217`) then raises `UnicodeEncodeError` on `encode('utf-8')`; `Utf8.Encode` has no such failure.
- `refresh()` saves the record only after `access_token` was read. The model keeps the in-memory record, so a `KeyError` there leaves `created` stamped, as the object in the source is.

## Findings

| source | as written | input that shows it | evidently intended | confidence | as-written member | corrected member |
|---|---|---|---|---|---|---|
| eve_sso/backends.py:45 | `find_user` calls `AUTH_USER_FROM_TOKEN_FUNC`, which the settings document as the function that creates users | `AUTH_CREATE_UNKNOWN_USER = False` and `AUTH_FIND_USER_FUNC` unset; a creating function answering user u for a new, ownerless token. `authenticate` makes u the owner | `find_user` calls `AUTH_FIND_USER_FUNC`, so no user is created when that is disabled | medium, not executed | Backends.AsWrittenIgnoresCreateGate | Backends.Authenticate |
| eve_sso/backends.py:31 | the log line reads `self.__class__.___name__` (three underscores), which no class has | with row 1 corrected: an ownerless token, no user found, creation enabled and a creating function answering user u. The log line raises `AttributeError` after u was created and before u becomes the owner | `__name__`: log, and make u the owner | high, not executed | Backends.LogLineRaises | Backends.Decide |
