# Flask-CrossDomain-Session, modelled in Dafny

Flask-CrossDomain-Session keeps one server-side session for a visitor across
several sites run by the same Flask application. Each site is identified by
its registrable domain (the last two labels of its host). Every request is
bound to a *session instance*, which joins one *session* (the row that holds
a token, the session data and a user) to one domain. One site is the
*primary*. A script injected into the pages of the other sites runs a
two-step handshake with it:

- `check` asks the primary which token the browser should keep;
- `replace` moves the calling site onto the token the primary hands out.

The project models the parts of the library that decide which session a
request gets and how the handshake changes the stored sessions:

- `model.dfy` (module `Model`): the Session and SessionInstance records, the
  token generator, the store the library needs from its persistence layer (as
  a class over a map of sessions and a set of instances), the token
  precedence of `from_request`, the registrable-domain rule, and
  `from_request` itself.
- `session_interface.dfy` (module `SessionInterface`): the session object
  (`SessionValueAccessor` and `DummySession`), `replace_instance`, and Flask's
  two hooks `open_session` and `save_session`.
- `crossdomain.dfy` (module `CrossDomain`): the extension object and its
  loaders, the CORS headers added after each request, and the handshake
  endpoint. The endpoint is split into its validation chain (`Route`), its
  first-match decision table (`Decide`, with the table written row by row in
  `Table`), and the effects of each action on the store and the session.
- `scenarios.dfy` (module `Scenarios`): whole requests run the way Flask runs
  them (open the session, run the handler, save the session) against one
  store. They replay the visits and handshakes of `tests/test_crossdomain.py`
  for any two site names.
- `wrappers.dfy` and `text.dfy`: `Option`/`Result`, and Python's
  `str.split`/`str.join`/`startswith`/`endswith`.

Randomness and the clock are parameters. `entropy` stands for the 32 bytes
`token_hex(32)` draws, and `now` stands for `datetime.utcnow()`. A method that
may create a session requires that the token drawn from `entropy` is not
already stored; this is the uniqueness the database column enforces.

## Model

| member | source | states |
|---|---|---|
| Model.TokenHex | flask_crossdomain_session/model.py:31-32 | a token has two lower-case hex digits per random byte |
| Model.TokenHexRoundTrip | flask_crossdomain_session/model.py:31-32 | decoding the hex token gives back exactly the random bytes it was made from |
| Model.GenerateToken | flask_crossdomain_session/model.py:31-32 | `generate_token` gives a 64-character lower-case hex token from which its 32 random bytes can be decoded |
| Model.GenerateTokenInjective | flask_crossdomain_session/model.py:31-32 | different random bytes give different tokens |
| Model.StripPort | flask_crossdomain_session/model.py:127 | the host without its port is the prefix of the host up to its first colon (all of it when there is none) |
| Model.RegistrableDomain | flask_crossdomain_session/model.py:127 | the last two dot labels of the port-less host, joined by a dot (its properties are the lemmas below) |
| Model.ResolveHost | flask_crossdomain_session/model.py:125-126 | the `host` argument when it is given and non-empty, else the request's host |
| Model.RegistrableDomainIsLastTwoLabels | flask_crossdomain_session/model.py:127 | the instance domain has no port and at most one dot; it is either the whole port-less host or the suffix after the host's second-to-last dot |
| Model.RegistrableDomainOfSubdomain | flask_crossdomain_session/model.py:125-127 | `sub.name.tld:port` is bound to `name.tld` |
| Model.RegistrableDomainOfDomain | flask_crossdomain_session/model.py:127 | a host without a port and with at most one dot is its own domain |
| Model.RegistrableDomainIdempotent | flask_crossdomain_session/model.py:127 | applying the domain rule twice gives the same domain as applying it once |
| Model.RegistrableDomainOfTwoLabels | flask_crossdomain_session/model.py:127 | `name.tld` is its own domain |
| Model.BearerToken | flask_crossdomain_session/model.py:119-121 | the token taken from `Bearer ...` has no space, follows `Bearer ` directly, and ends at the next space or at the end of the header |
| Model.BearerFieldIsSecondWord | flask_crossdomain_session/model.py:120 | `split(' ')[1]` of a `Bearer ` header exists and is the text between the first and the second space |
| Model.BearerTokenOfHeader | flask_crossdomain_session/model.py:119-121 | the header `Bearer <token>`, for a token without spaces, yields that token |
| Model.TokenSource | flask_crossdomain_session/model.py:112-123 | an explicit token wins, with the given type. Otherwise the session cookie, looked up as a cookie session. Otherwise, exactly when the Authorization header starts with `Bearer `, its second space-separated field, looked up as an api session. Otherwise no token |
| Model.HeaderCredential | flask_crossdomain_session/model.py:119-123 | the last two levels of the precedence: a `Bearer ` header gives its token as an api credential, and without one there is no token |
| Model.TokenSourcePrecedence | flask_crossdomain_session/model.py:115-123 | with an explicit token, the cookie and the Authorization header do not matter; with a cookie, the Authorization header does not matter |
| Model.NewSession | flask_crossdomain_session/model.py:131-135 | a new session is a cookie session with no user, not yet persisted, whose data is `{_token: token}` |
| Model.Store.constructor | flask_crossdomain_session/model.py:52-93 | an empty store is consistent |
| Model.Store.FindByToken | flask_crossdomain_session/model.py:70-75 | finds the stored session with that token; with a type filter, a session of the other type is not found |
| Model.Store.IsNew | flask_crossdomain_session/model.py:86-87 | a stored session is new exactly when it has not been persisted (has no id) |
| Model.Store.FindBySessionAndDomain | flask_crossdomain_session/model.py:168-170 | returns an instance exactly when the session has one for the domain, and then that instance |
| Model.Store.Save | flask_crossdomain_session/model.py:77-78 | the session is stored under its token; nothing else changes |
| Model.Store.SaveInstance | flask_crossdomain_session/model.py:172-173 | the instance is added; nothing else changes |
| Model.Store.Delete | flask_crossdomain_session/model.py:80-84 | the session is removed and the delete cascades to its instances; the store stays consistent |
| Model.Store.Commit | flask_crossdomain_session/model.py:89-91 | every record is persisted (none is new any more); no record is added or removed |
| Model.FromRequest | flask_crossdomain_session/model.py:110-145 | errors when a token is given without a type. Otherwise the instance is stored and bound to the registrable domain of the host. An unknown or missing token creates exactly one fresh cookie session and one instance. A found session keeps the store's sessions, and its instance for the domain is reused or added |
| SessionInterface.SessionAccessor.constructor | flask_crossdomain_session/session_interface.py:13-17 | the accessor is bound to the instance, holds the session's data, keeps `new`, and is neither accessed nor modified |
| SessionInterface.SessionAccessor.Dummy | flask_crossdomain_session/session_interface.py:32-33 | a dummy session has no instance and an empty mapping |
| SessionInterface.SessionAccessor.Get | flask_crossdomain_session/session_interface.py:12-17 | reading a key marks the session accessed; the key is found exactly when it is in the mapping |
| SessionInterface.SessionAccessor.Set | flask_crossdomain_session/session_interface.py:12-17 | writing a key updates the mapping and marks the session modified and accessed |
| SessionInterface.SessionAccessor.ReplaceInstance | flask_crossdomain_session/session_interface.py:23-29 | binds the accessor to the new instance and replaces the mapping with that session's data; clears `modified` and `accessed` and keeps `new` |
| SessionInterface.IsStaticEndpoint | flask_crossdomain_session/session_interface.py:41-43 | an endpoint is static when it is named `static` or ends in `.static` |
| SessionInterface.OpenSession | flask_crossdomain_session/session_interface.py:40-50 | gives a dummy session exactly for static endpoints, OPTIONS requests or when cookies may not be set, and then the store is unchanged. Otherwise: the instance of `from_request` for the host's domain; `new` as it was before the commit; every record committed; a fresh session exactly when no stored session matches the credential |
| SessionInterface.SaveSession | flask_crossdomain_session/session_interface.py:52-79 | `Vary: Cookie` exactly when a cookie session was read. The data are written back and committed when the session is new or its changed mapping differs; otherwise the store is unchanged. A cookie is set exactly for a cookie session that is new or whose token the request's cookie does not hold, with that token and the instance's domain |
| CrossDomain.OriginTail | flask_crossdomain_session/__init__.py:120 | the Origin's last `/`-separated segment: a slash-free suffix of the Origin that follows its last slash, or the whole Origin when it has none |
| CrossDomain.Route | flask_crossdomain_session/__init__.py:107-174 | each error message is returned exactly when its condition holds and the earlier checks passed (missing action, host, token fields, Origin, missing token, unknown action). `check` and `replace` pass with the body's token |
| CrossDomain.MissingActionComesFirst | flask_crossdomain_session/__init__.py:108-109 | a body without `action` is refused first, whatever the host and the Origin |
| CrossDomain.ReplaceIgnoresHostAndOrigin | flask_crossdomain_session/__init__.py:163-166 | the validation of `replace` depends on neither the host nor the Origin |
| CrossDomain.Decide | flask_crossdomain_session/__init__.py:123-150 | equal tokens give `use_current`; a new primary session gives `replace_primary`. A different-token `use_current` happens only for two known sessions logged in as different users. `replace` happens only when the origin is new or unknown, or the primary is logged in |
| CrossDomain.DecideIsFirstMatchOfTable | flask_crossdomain_session/__init__.py:123-150 | the decision is the first matching row of the table written row by row, and some row always matches |
| CrossDomain.UserRulesPartition | flask_crossdomain_session/__init__.py:135-150 | exactly one of the four logged-in-user rules applies to any pair of users |
| CrossDomain.Status | flask_crossdomain_session/__init__.py:108-121 | error replies have status 400, crashes 500, and every other reply 200 |
| CrossDomain.CheckFacts | flask_crossdomain_session/__init__.py:122-136 | the facts `check` decides on: equal tokens, the primary's `new` flag, the truthiness of `current_is_new`, whether any session has the origin's token, and the two sessions' users |
| CrossDomain.OriginHost | flask_crossdomain_session/__init__.py:47 | the host CORS compares is the prefix of the Origin's last segment up to its first colon; it contains neither a slash nor a colon |
| CrossDomain.Rebound | flask_crossdomain_session/__init__.py:152-171 | after a rebind the old session is gone. Exactly one fresh cookie session is added unless an existing session was adopted. All other sessions are untouched |
| CrossDomain.Extension.constructor | flask_crossdomain_session/__init__.py:20-27 | a new extension knows no domains and may set cookies |
| CrossDomain.Extension.DomainLoader | flask_crossdomain_session/__init__.py:71-82 | the registered loader's domains are the allowed domains |
| CrossDomain.Extension.MaySetCookieLoader | flask_crossdomain_session/__init__.py:84-97 | the registered loader decides whether cookies may be set |
| CrossDomain.Extension.CorsHeaders | flask_crossdomain_session/__init__.py:43-57 | static responses allow any origin. Other responses echo the Origin with credentials and the method list exactly when an Origin is present and its port-less host is allowed (or is `localhost` in debug mode) |
| CrossDomain.Extension.HandleCrossdomainRoute | flask_crossdomain_session/__init__.py:107-174 | a refused body gives its error and changes nothing; a valid `check` has the effect in CheckEffect and a valid `replace` the effect in ReplaceEffect |
| CrossDomain.CheckAction | flask_crossdomain_session/__init__.py:122-162 | on a dummy session `check` fails. `use_current` and `replace` change nothing, and `replace` returns the primary's token. `replace_primary` deletes the primary's session, rebinds to the origin's cookie session (or a fresh one), and answers `use_current` |
| CrossDomain.ReplacePrimarySession | flask_crossdomain_session/__init__.py:152-157 | the primary's session and its instances are gone; the accessor is bound to this domain's instance of the adopted (or fresh) cookie session, holds that session's data, and keeps `new` |
| CrossDomain.ReplaceAction | flask_crossdomain_session/__init__.py:163-172 | answers `replaced`. A missing `_token`, or a dummy session that must be rebound, fails (status 500). A session already holding the token is left alone. On these three paths the store and the accessor's instance, data, `new` and `modified` stay as they were, and only `accessed` is set. Otherwise the current session is deleted and the accessor is rebound to the token's cookie session (or a fresh one) |
| CrossDomain.Reconcile | tests/test_crossdomain.py:189-210 | `check` followed by `replace` when told to. Equal tokens change nothing. A `replace` decision makes `check` answer `replace` with the primary's token and `replace` run and answer `replaced`. After `replace`, the origin is on the primary's token for its own domain. After an adopting `replace_primary`, both are on the origin's token. When the primary is new and the origin's token names no cookie session, the primary moves to a fresh token and the two sites end on different tokens |
| Scenarios.OriginTailOfUrl | flask_crossdomain_session/__init__.py:120 | the last path segment of `scheme//host` is the host |
| Scenarios.SiteNameFacts | flask_crossdomain_session/__init__.py:47-120 | a site name is its own cookie domain, and its Origin names it both for the `check` Origin test and for CORS |
| Scenarios.PortedOriginPassesCorsOnly | flask_crossdomain_session/__init__.py:47-121 | an Origin with a port gets the CORS headers but is refused by `check` as an invalid Origin |
| Scenarios.DrawnTokensDiffer | flask_crossdomain_session/model.py:31-32 | tokens drawn from pairwise different bytes are pairwise different |
| Scenarios.NoCookieIfDisabled | tests/test_crossdomain.py:91-95 | with a may-set-cookie loader that answers no, a page request sets no cookie and stores nothing |
| Scenarios.FirstVisitSetsCookie | tests/test_crossdomain.py:97-105 | a first visit sets a cookie with a fresh token for the host's domain |
| Scenarios.NextVisitKeepsCookie | tests/test_crossdomain.py:107-112 | the next visit resolves the same token, stores nothing new and sets no cookie |
| Scenarios.SessionKeepsData | tests/test_crossdomain.py:114-117 | a value written by one request is read back by the next |
| Scenarios.OpenBearerSession | flask_crossdomain_session/session_interface.py:40-50 | a request carrying `Bearer <token>` of an api session is bound to that session and its data, and the set of sessions does not change |
| Scenarios.BearerGet | tests/test_crossdomain.py:126-129 | a read under the Bearer header returns the session's stored value, leaves its data alone and sets no cookie |
| Scenarios.BearerSet | tests/test_crossdomain.py:131 | a write under the Bearer header stores the new value in the api session and sets no cookie |
| Scenarios.HeaderAuth | tests/test_crossdomain.py:119-133 | an api session presented as a `Bearer` token is resolved with its data and no cookie is set; a value written under the same header is read back by the next request |
| Scenarios.TestExtension | tests/test_crossdomain.py:61-69 | the extension as configured: a primary servername and the allowed domains |
| Scenarios.FreshVisit | tests/test_crossdomain.py:97-100 | a first page visit adds exactly one committed cookie session with an instance for the host, and sets its cookie |
| Scenarios.OpenNewSession | flask_crossdomain_session/session_interface.py:40-50 | a request without a credential gets a fresh committed cookie session, marked new, with an instance for its domain |
| Scenarios.OpenKnownSession | flask_crossdomain_session/session_interface.py:40-50 | a request with the cookie of a known session that already has an instance for its domain changes nothing in the store and is not new |
| Scenarios.TwoVisits | tests/test_crossdomain.py:190-193 | visits to two sites leave two committed cookie sessions, one per site |
| Scenarios.CheckOnPrimary | flask_crossdomain_session/__init__.py:122-162 | on a committed primary session, with the same token or a new origin session, `check` answers `use_current` or `replace` with the primary's token and changes nothing |
| Scenarios.CheckKnownSession | tests/test_crossdomain.py:196-201 | that `check` as a whole request stores, deletes and sets nothing |
| Scenarios.ReplaceOnSite | tests/test_crossdomain.py:203-210 | `replace` on the secondary deletes its session and moves its cookie to the primary's token, which gets an instance there (model outcome; not committed in the program, see Left out) |
| Scenarios.HandshakeFromSecondary | tests/test_crossdomain.py:196-210 | `check` answers `replace` with the primary's token; `replace` leaves the primary's session as the only one and sets the secondary's cookie to it (model outcome; not committed in the program, see Left out) |
| Scenarios.VisitPrimaryThenSecondary | tests/test_crossdomain.py:189-210 | primary first, then secondary: the handshake ends with the secondary's cookie holding the primary's token and one session in the store (model outcome; not committed in the program, see Left out) |
| Scenarios.AdoptOnPrimary | flask_crossdomain_session/__init__.py:126-157 | on a primary session created by this request, `check` adopts the origin's cookie session and answers `use_current` |
| Scenarios.OpenAndAdopt | tests/test_crossdomain.py:216-222 | opening and adopting leaves the store with exactly the sessions it had before, with the accessor on the origin's token for the primary |
| Scenarios.CheckNewPrimary | tests/test_crossdomain.py:216-222 | `check` from a visitor without a primary cookie sets the primary's cookie to the origin's token and keeps the stored sessions |
| Scenarios.SecondaryFirst | tests/test_crossdomain.py:212-222 | secondary first, then the handshake: one session, with instances for both sites; the secondary's first cookie and the primary's cookie both hold its token |
| Scenarios.PageVisit | tests/test_crossdomain.py:224-225 | a page request with the cookie of a session that already has an instance for the site changes nothing in the store and sets no cookie |
| Scenarios.Revisit | tests/test_crossdomain.py:227-237 | a revisit of the secondary sets no cookie, and its second `check` answers `use_current`; the store keeps the one session |
| Scenarios.VisitSecondaryThenPrimary | tests/test_crossdomain.py:212-241 | secondary first, the handshake, a primary page, then the revisit of the secondary: the primary's cookie equals the secondary's, and no later response moves either cookie |

## Left out

- Flask, Werkzeug and SQLAlchemy plumbing (configuration defaults, URL rules, the request context, `jsonify`) is left out. Only the values the library reads or writes are modelled.
- Transactions are not modelled. `delete` takes effect at once, while SQLAlchemy defers it to the next flush. The rollback at request teardown is left out as well. So a `replace` or `replace_primary` whose session was not new, and that is never committed by `save_session`, keeps its changes in the model.
- Model.Store.Delete: the `expunge` branch for records without an id is not told apart from `delete`; both remove the record.
- JSON fields of the handshake body that are not strings (a number as `current_token` or `token`) are treated as missing. The source would pass them on to the database lookup. The JSON values modelled have no arrays or objects, so the truthiness of a `current_is_new` given as `[]` or `{}` (false) or as a non-empty array or object (true) is not expressed.
- CrossDomain.Extension.CorsHeaders: the `Access-Control-Allow-Headers` value (the sorted names of the response's own headers) is left out, because response headers are not modelled.
- The injected client script (`injection.html`, rendered by `_html`) is not part of this model. CrossDomain.Reconcile and the scenarios play its part: `check`, then `replace` with the token handed out.
- Cookie attributes other than name, value and domain (expiry, secure, httponly, path, samesite) and the `Vary` set beyond `Cookie` are configuration and are left out.
- CrossDomain.Reconcile: chains the two handlers on the two sessions without the `save_session`/`open_session` of the requests between them; the scenarios run the full requests.
- The primary servername is a constructor parameter of the extension, not read from the app configuration.
- Concurrency between requests is left out; every request runs to completion before the next.
- `request.remote_addr` and the user agent are copied into new sessions but play no other part.
- When both sessions are logged in as the same user, `check` answers `replace`, as the comment at flask_crossdomain_session/__init__.py:142 says ("primary logged in (or both and same user)"); CrossDomain.Table and CrossDomain.Decide follow that code.
- A crash of the Python code (a `DummySession` reaching the handler, or a session without `_token` reaching `replace`) is modelled as the reply `ServerError` (status 500); the exception itself is not.
