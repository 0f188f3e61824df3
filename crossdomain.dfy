/**
 * The cross-domain reconciliation of flask_crossdomain_session/__init__.py:
 * the extension object with its registered loaders, the CORS headers added
 * after every request, and the handshake endpoint whose `check` action
 * decides which of two tokens a browser keeps and whose `replace` action
 * adopts the chosen token on a non-primary domain.
 */
module CrossDomain {
  import opened Wrappers
  import opened Text
  import opened Model
  import opened SessionInterface

  /** A JSON request body (an object). */
  type Body = map<string, Json>

  /** `request.json.get(key)`: JSON null when the key is missing. */
  function Field(body: Body, key: string): Json
  {
    if key in body then body[key] else JNull
  }

  /** A token field that is present: a non-empty JSON string. */
  predicate IsTokenField(j: Json)
  {
    j.JStr? && j.s != ""
  }

  const MissingAction: string := "missing \"action\""
  const InvalidHostname: string := "invalid hostname"
  const MissingCheckFields: string := "missing one or more of \"current_token\" or \"current_is_new\""
  const InvalidOrigin: string := "invalid or missing Origin"
  const MissingToken: string := "missing \"token\""
  const InvalidAction: string := "invalid value for \"action\""

  /** `t` is what follows the last slash of `s` (all of `s` when it has no slash). */
  predicate IsLastSegment(s: string, t: string)
  {
    '/' !in t && EndsWith(s, t) && (|t| == |s| || s[|s| - |t| - 1] == '/')
  }

  /** `origin.split('/')[-1]`: the part of an Origin header after its last slash. */
  function OriginTail(origin: string): (t: string)
    ensures '/' !in t
    ensures IsLastSegment(origin, t)
  {
    var parts := Split(origin, '/');
    var n := |parts|;
    assert n > 1 ==> origin == Join(parts[..n - 1], '/') + ['/'] + parts[n - 1] by {
      if n > 1 {
        JoinAt(parts, n - 1, '/');
        assert parts[n - 1..] == [parts[n - 1]];
      }
    }
    parts[n - 1]
  }

  // ---------------------------------------------------------------------------
  // Validation of the handshake body.

  /** Where the validation of a handshake body leads. */
  datatype Step =
    | Reject(message: string)
    | Check(currentToken: string, currentIsNew: Json)
    | ReplaceWith(token: string)

  /** The conditions under which `check` passes every validation. */
  predicate CheckAccepted(body: Body, host: string, primary: Option<string>, origin: Option<string>, domains: seq<string>)
  {
    && "action" in body && body["action"] == JStr("check")
    && primary == Some(host)
    && IsTokenField(Field(body, "current_token")) && Field(body, "current_is_new") != JNull
    && origin.Some? && OriginTail(origin.value) in domains
  }

  /**
   * The validation chain of the handshake endpoint, in the order the checks
   * run: `action` present; for `check` the host, then the two fields, then
   * the Origin; for `replace` the token; any other action is invalid.
   */
  function Route(body: Body, host: string, primary: Option<string>, origin: Option<string>, domains: seq<string>): (s: Step)
    ensures s == Reject(MissingAction) <==> "action" !in body
    ensures s == Reject(InvalidHostname) <==>
              "action" in body && body["action"] == JStr("check") && primary != Some(host)
    ensures s == Reject(MissingCheckFields) <==>
              && "action" in body && body["action"] == JStr("check") && primary == Some(host)
              && (!IsTokenField(Field(body, "current_token")) || Field(body, "current_is_new") == JNull)
    ensures s == Reject(InvalidOrigin) <==>
              && "action" in body && body["action"] == JStr("check") && primary == Some(host)
              && IsTokenField(Field(body, "current_token")) && Field(body, "current_is_new") != JNull
              && (origin.None? || OriginTail(origin.value) !in domains)
    ensures s.Check? <==> CheckAccepted(body, host, primary, origin, domains)
    ensures s.Check? ==> JStr(s.currentToken) == body["current_token"] && s.currentIsNew == body["current_is_new"]
    ensures s == Reject(MissingToken) <==>
              "action" in body && body["action"] == JStr("replace") && !IsTokenField(Field(body, "token"))
    ensures s.ReplaceWith? <==>
              "action" in body && body["action"] == JStr("replace") && IsTokenField(Field(body, "token"))
    ensures s.ReplaceWith? ==> JStr(s.token) == body["token"] && s.token != ""
    ensures s == Reject(InvalidAction) <==>
              "action" in body && body["action"] != JStr("check") && body["action"] != JStr("replace")
  {
    if "action" !in body then Reject(MissingAction)
    else
      var action := body["action"];
      if action == JStr("check") then
        if primary != Some(host) then Reject(InvalidHostname)
        else
          var token := Field(body, "current_token");
          var isNew := Field(body, "current_is_new");
          if !IsTokenField(token) || isNew == JNull then Reject(MissingCheckFields)
          else if origin.None? || OriginTail(origin.value) !in domains then Reject(InvalidOrigin)
          else Check(token.s, isNew)
      else if action == JStr("replace") then
        var token := Field(body, "token");
        if !IsTokenField(token) then Reject(MissingToken)
        else ReplaceWith(token.s)
      else Reject(InvalidAction)
  }

  /** A body without `action` is refused first, whatever the host, the Origin and the allowed domains. */
  lemma MissingActionComesFirst(body: Body, host: string, primary: Option<string>, origin: Option<string>, domains: seq<string>)
    requires "action" !in body
    ensures forall h: string, o: Option<string> :: Route(body, h, primary, o, domains) == Reject(MissingAction)
  {
  }

  /** `replace` looks at neither the host nor the Origin header. */
  lemma ReplaceIgnoresHostAndOrigin(body: Body, host: string, host': string, primary: Option<string>,
                                    origin: Option<string>, origin': Option<string>, domains: seq<string>)
    requires "action" in body && body["action"] == JStr("replace")
    ensures Route(body, host, primary, origin, domains) == Route(body, host', primary, origin', domains)
  {
  }

  // ---------------------------------------------------------------------------
  // The decision table of `check`.

  datatype Outcome = UseCurrent | Replace | ReplacePrimary

  /**
   * What `check` knows: whether the origin's token is the primary's, whether
   * the primary session was created on this request, the caller's
   * `current_is_new`, whether a session exists for the origin's token, and
   * the users the two sessions are logged in as.
   */
  datatype Facts = Facts(
    tokensEqual: bool,
    primaryNew: bool,
    originNew: bool,
    originFound: bool,
    originUser: Option<UserId>,
    primaryUser: Option<UserId>)

  /** Both sessions are logged in, as different users. */
  predicate DistinctUsers(f: Facts)
  {
    f.originUser.Some? && f.primaryUser.Some? && f.originUser.value != f.primaryUser.value
  }

  /** The first-match decision table of `check`. */
  function Decide(f: Facts): (o: Outcome)
    ensures f.tokensEqual ==> o == UseCurrent
    ensures !f.tokensEqual && f.primaryNew ==> o == ReplacePrimary
    ensures o == UseCurrent && !f.tokensEqual ==>
              !f.primaryNew && !f.originNew && f.originFound && DistinctUsers(f)
    ensures o == Replace ==>
              !f.tokensEqual && !f.primaryNew && (f.originNew || !f.originFound || f.primaryUser.Some?)
  {
    if f.tokensEqual then UseCurrent
    else if f.primaryNew then ReplacePrimary
    else if f.originNew || !f.originFound then Replace
    else if DistinctUsers(f) then UseCurrent
    else if f.primaryUser.Some? then Replace
    else if f.originUser.Some? then ReplacePrimary
    else ReplacePrimary
  }

  /** One row of the table: whether its condition holds, and its result. */
  datatype Row = Row(applies: bool, result: Outcome)

  /**
   * The table row by row, one condition per row, as the comments of
   * `_handle_crossdomain_route` give it: equal tokens; primary new; origin
   * new or unknown; both logged in as different users; primary logged in
   * (alone or as the same user); only the origin logged in; neither.
   */
  function Table(f: Facts): seq<Row>
  {
    [ Row(f.tokensEqual, UseCurrent),
      Row(f.primaryNew, ReplacePrimary),
      Row(f.originNew || !f.originFound, Replace),
      Row(DistinctUsers(f), UseCurrent),
      Row(f.primaryUser.Some? && !DistinctUsers(f), Replace),
      Row(f.originUser.Some? && f.primaryUser.None?, ReplacePrimary),
      Row(f.originUser.None? && f.primaryUser.None?, ReplacePrimary) ]
  }

  /** First-match semantics: the result of the first row whose condition holds. */
  function FirstMatch(rows: seq<Row>): (r: Option<Outcome>)
    ensures r.None? <==> forall i :: 0 <= i < |rows| ==> !rows[i].applies
    ensures r.Some? ==> exists i :: 0 <= i < |rows| && rows[i].applies && rows[i].result == r.value &&
                                    forall j :: 0 <= j < i ==> !rows[j].applies
  {
    if rows == [] then None
    else if rows[0].applies then Some(rows[0].result)
    else
      var r := FirstMatch(rows[1..]);
      assert forall i :: 1 <= i < |rows| ==> rows[i] == rows[1..][i - 1];
      if r.Some? then
        ghost var k :| 0 <= k < |rows[1..]| && rows[1..][k].applies && rows[1..][k].result == r.value &&
                       forall j :: 0 <= j < k ==> !rows[1..][j].applies;
        assert rows[k + 1] == rows[1..][k];
        r
      else r
  }

  /** A row whose condition holds, after rows whose conditions all fail, is the first match. */
  lemma {:induction false} FirstMatchAt(rows: seq<Row>, k: int)
    requires 0 <= k < |rows| && rows[k].applies
    requires forall j :: 0 <= j < k ==> !rows[j].applies
    ensures FirstMatch(rows) == Some(rows[k].result)
  {
    if k > 0 {
      FirstMatchAt(rows[1..], k - 1);
    }
  }

  /** The table is total (some row always applies) and Decide is its first match. */
  lemma DecideIsFirstMatchOfTable(f: Facts)
    ensures FirstMatch(Table(f)) == Some(Decide(f))
  {
    var k := if f.tokensEqual then 0 else if f.primaryNew then 1 else if f.originNew || !f.originFound then 2
             else if DistinctUsers(f) then 3 else if f.primaryUser.Some? then 4
             else if f.originUser.Some? then 5 else 6;
    FirstMatchAt(Table(f), k);
  }

  /** The four user rules partition every combination of logged-in users: exactly one applies. */
  lemma UserRulesPartition(f: Facts)
    ensures var t := Table(f);
            (if t[3].applies then 1 else 0) + (if t[4].applies then 1 else 0) +
            (if t[5].applies then 1 else 0) + (if t[6].applies then 1 else 0) == 1
  {
  }

  // ---------------------------------------------------------------------------
  // Handshake replies.

  /** The JSON replies of the endpoint; ServerError is an exception Flask turns into status 500. */
  datatype Reply =
    | ErrorReply(message: string)
    | UseCurrentReply
    | ReplaceReply(newToken: string)
    | ReplacedReply
    | ServerError

  function Status(r: Reply): (code: int)
    ensures code == 400 <==> r.ErrorReply?
    ensures code == 500 <==> r.ServerError?
    ensures !r.ErrorReply? && !r.ServerError? ==> code == 200
  {
    match r
    case ErrorReply(_) => 400
    case ServerError => 500
    case _ => 200
  }

  /** The facts `check` reads from the store for the origin token and the primary session. */
  function CheckFacts(store: Store, currentToken: string, currentIsNew: Json, primaryToken: string, primaryNew: bool): Facts
    reads store
    requires primaryToken in store.sessions
  {
    var origin := store.FindByToken(currentToken, None);
    Facts(currentToken == primaryToken, primaryNew, Truthy(currentIsNew), origin.Some?,
          if origin.Some? then origin.value.user else None, store.sessions[primaryToken].user)
  }

  // ---------------------------------------------------------------------------
  // CORS.

  const AllowedMethods: string := "POST, DELETE, HEAD, PATCH, GET, OPTIONS"

  /** The CORS headers `add_crossdomain_headers` sets (the Allow-Headers list is left out). */
  datatype Cors =
    | NoCors
    | AllowAnyOrigin
    | AllowOrigin(origin: string, credentials: string, methods: string)

  /** The host of an Origin header without its port, as the CORS check compares it. */
  function OriginHost(origin: string): (h: string)
    ensures ':' !in h && '/' !in h
    ensures var tail := OriginTail(origin);
            StartsWith(tail, h) && (|h| == |tail| || tail[|h|] == ':')
  {
    var tail := OriginTail(origin);
    var h := StripPort(tail);
    assert h == tail[..|h|];
    h
  }

  // ---------------------------------------------------------------------------
  // The extension object.

  /**
   * CrossDomainSession: the configured primary host name, the debug flag, and
   * the values the registered domain and may-set-cookie loaders return.
   */
  class Extension {
    const primaryServername: Option<string>
    const debug: bool
    var domains: seq<string>
    var maySetCookie: bool

    /** A new extension knows no domains and may set cookies. */
    constructor (primaryServername: Option<string>, debug: bool)
      ensures this.primaryServername == primaryServername && this.debug == debug
      ensures domains == [] && maySetCookie
    {
      this.primaryServername := primaryServername;
      this.debug := debug;
      domains := [];
      maySetCookie := true;
    }

    /** `domain_loader`: registers the allowed domains. */
    method DomainLoader(ds: seq<string>)
      modifies this`domains
      ensures domains == ds
    {
      domains := ds;
    }

    /** `may_set_cookie_loader`: registers whether cookies may be set. */
    method MaySetCookieLoader(may: bool)
      modifies this`maySetCookie
      ensures maySetCookie == may
    {
      maySetCookie := may;
    }

    /**
     * `add_crossdomain_headers`: static responses allow any origin; other
     * responses echo the Origin with credentials when its port-less host is an
     * allowed domain, or `localhost` in debug mode, and get nothing otherwise.
     */
    function CorsHeaders(endpoint: Option<string>, origin: Option<string>): (h: Cors)
      reads this
      ensures h == AllowAnyOrigin <==> endpoint == Some("static")
      ensures h.AllowOrigin? <==>
                && endpoint != Some("static") && origin.Some?
                && (OriginHost(origin.value) in domains || (debug && OriginHost(origin.value) == "localhost"))
      ensures h.AllowOrigin? ==> h == AllowOrigin(origin.value, "true", AllowedMethods)
    {
      if endpoint != Some("static") then
        if origin.None? then NoCors
        else
          var host := OriginHost(origin.value);
          if host in domains || (debug && host == "localhost") then AllowOrigin(origin.value, "true", AllowedMethods)
          else NoCors
      else AllowAnyOrigin
    }

    /**
     * `_handle_crossdomain_route`: validates the body and runs the action it
     * names. `entropy` and `now` stand for the random bytes and the clock a
     * newly resolved session instance would use.
     */
    method HandleCrossdomainRoute(store: Store, acc: SessionAccessor, req: Request, body: Body,
                                  entropy: seq<Byte>, now: int)
      returns (reply: Reply)
      requires store.Valid() && acc.LinkedTo(store)
      requires |entropy| == TokenBytes && GenerateToken(entropy) !in store.sessions
      modifies store, acc
      ensures store.Valid() && acc.LinkedTo(store)
      ensures var step := Route(body, req.host, primaryServername, req.origin, domains);
              && (step.Reject? ==> reply == ErrorReply(step.message) && unchanged(store) && unchanged(acc))
              && (step.Check? ==> CheckEffect(store, acc, req, step.currentToken, step.currentIsNew, entropy, reply))
              && (step.ReplaceWith? ==> ReplaceEffect(store, acc, req, step.token, entropy, reply))
    {
      var step := Route(body, req.host, primaryServername, req.origin, domains);
      match step
      case Reject(message) =>
        reply := ErrorReply(message);
      case Check(token, isNew) =>
        reply := CheckAction(store, acc, req, token, isNew, entropy, now);
      case ReplaceWith(token) =>
        reply := ReplaceAction(store, acc, req, token, entropy, now);
    }
  }

  /**
   * The sessions after the current session `p` is dropped for another: without
   * `p`, and with the fresh cookie session `newToken` unless an existing one
   * was adopted.
   */
  function Rebound(sessions: map<string, Session>, p: string, adopted: bool, newToken: string, req: Request)
    : (r: map<string, Session>)
    ensures adopted ==> r.Keys == sessions.Keys - {p}
    ensures !adopted ==> r.Keys == sessions.Keys - {p} + {newToken} && r[newToken] == NewSession(newToken, req)
    ensures forall t :: t in sessions && t != p && (adopted || t != newToken) ==> r[t] == sessions[t]
  {
    if adopted then sessions - {p} else (sessions - {p})[newToken := NewSession(newToken, req)]
  }

  /**
   * The current session `p` is gone (with its instances), and the accessor is
   * bound to a new instance for the request's domain: of the cookie session
   * `token` when it was adopted, else of a fresh cookie session. The
   * accessor's data are the session's, unread and unchanged, and its `new`
   * flag is kept.
   */
  twostate predicate Rebind(store: Store, acc: SessionAccessor, req: Request, p: string, adopted: bool,
                            token: string, entropy: seq<Byte>)
    requires |entropy| == TokenBytes
    reads store, acc
  {
    && p !in store.sessions
    && acc.instance.Some?
    && store.sessions == Rebound(old(store.sessions), p, adopted, GenerateToken(entropy), req)
    && store.instances == (set i | i in old(store.instances) && i.token != p) + {acc.instance.value}
    && acc.instance.value.domain == RegistrableDomain(req.host)
    && acc.instance.value.token == (if adopted then token else GenerateToken(entropy))
    && acc.instance.value.token in store.sessions
    && acc.mapping == store.sessions[acc.instance.value.token].data
    && !acc.modified && !acc.accessed && acc.isNew == old(acc.isNew)
  }

  /**
   * What `check` does with a validated body. On a dummy session it fails.
   * Otherwise the table decides; `use_current` and `replace` change nothing
   * and `replace` hands out the primary's token; `replace_primary` deletes
   * the primary's session, rebinds the accessor to the origin's cookie
   * session (or a fresh one when the origin token names none) for this
   * domain, and answers `use_current`.
   */
  twostate predicate CheckEffect(store: Store, acc: SessionAccessor, req: Request, token: string,
                                 isNew: Json, entropy: seq<Byte>, reply: Reply)
    requires |entropy| == TokenBytes
    reads store, acc
  {
    && (reply.UseCurrentReply? || reply.ReplaceReply? || reply.ServerError?)
    && (old(acc.instance).None? ==> reply == ServerError && unchanged(store) && unchanged(acc))
    && (old(acc.instance).Some? && old(acc.instance).value.token in old(store.sessions) ==>
          var p := old(acc.instance).value.token;
          var o := Decide(old(CheckFacts(store, token, isNew, p, acc.isNew)));
          && (o != ReplacePrimary ==> unchanged(store) && unchanged(acc))
          && (o == UseCurrent ==> reply == UseCurrentReply)
          && (o == Replace ==> reply == ReplaceReply(p))
          && (o == ReplacePrimary ==>
                && reply == UseCurrentReply
                && Rebind(store, acc, req, p, old(store.FindByToken(token, Some(Cookie))).Some?, token, entropy)))
  }

  /**
   * What `replace` does with a validated token. Reading `_token` marks the
   * session accessed and fails when the key is missing. When it already holds
   * the token nothing else happens; otherwise the current session is deleted
   * and the accessor rebound to the token's cookie session (or a fresh one)
   * for this domain. The answer is always `replaced`.
   */
  twostate predicate ReplaceEffect(store: Store, acc: SessionAccessor, req: Request, token: string,
                                   entropy: seq<Byte>, reply: Reply)
    requires |entropy| == TokenBytes
    reads store, acc
  {
    && (reply == ReplacedReply || reply == ServerError)
    && (TokenKey !in old(acc.mapping) ==>
          && reply == ServerError && unchanged(store) && acc.accessed
          && acc.instance == old(acc.instance) && acc.mapping == old(acc.mapping)
          && acc.isNew == old(acc.isNew) && acc.modified == old(acc.modified))
    && (TokenKey in old(acc.mapping) && old(acc.mapping)[TokenKey] == JStr(token) ==>
          && reply == ReplacedReply && unchanged(store) && acc.accessed
          && acc.instance == old(acc.instance) && acc.mapping == old(acc.mapping)
          && acc.isNew == old(acc.isNew) && acc.modified == old(acc.modified))
    && (TokenKey in old(acc.mapping) && old(acc.mapping)[TokenKey] != JStr(token) ==>
          && (old(acc.instance).None? ==>
                && reply == ServerError && unchanged(store) && acc.accessed
                && acc.instance == old(acc.instance) && acc.mapping == old(acc.mapping)
                && acc.isNew == old(acc.isNew) && acc.modified == old(acc.modified))
          && (old(acc.instance).Some? ==>
                var p := old(acc.instance).value.token;
                var adopted := token != p && old(store.FindByToken(token, Some(Cookie))).Some?;
                && reply == ReplacedReply
                && Rebind(store, acc, req, p, adopted, token, entropy)))
  }

  /** The `check` branch of `_handle_crossdomain_route`, after validation. */
  method CheckAction(store: Store, acc: SessionAccessor, req: Request, token: string, isNew: Json,
                     entropy: seq<Byte>, now: int)
    returns (reply: Reply)
    requires store.Valid() && acc.LinkedTo(store)
    requires |entropy| == TokenBytes && GenerateToken(entropy) !in store.sessions
    requires token != ""
    modifies store, acc
    ensures store.Valid() && acc.LinkedTo(store)
    ensures CheckEffect(store, acc, req, token, isNew, entropy, reply)
  {
    if acc.instance.None? {
      // `session.instance` of a DummySession raises AttributeError.
      return ServerError;
    }
    var primaryToken := acc.instance.value.token;
    var result := Decide(CheckFacts(store, token, isNew, primaryToken, acc.isNew));
    if result == ReplacePrimary {
      ReplacePrimarySession(store, acc, req, token, entropy, now);
      result := UseCurrent;
    }
    if result == UseCurrent {
      reply := UseCurrentReply;
    } else {
      reply := ReplaceReply(acc.instance.value.token);
    }
  }

  /**
   * `replace_primary`: the origin's cookie session (or a fresh one) gets an
   * instance for this domain, and the primary's own session is deleted.
   */
  method ReplacePrimarySession(store: Store, acc: SessionAccessor, req: Request, token: string,
                               entropy: seq<Byte>, now: int)
    requires store.Valid() && acc.LinkedTo(store) && acc.instance.Some?
    requires acc.instance.value.token in store.sessions && acc.instance.value.token != token
    requires |entropy| == TokenBytes && GenerateToken(entropy) !in store.sessions
    requires token != ""
    modifies store, acc
    ensures store.Valid() && acc.LinkedTo(store)
    ensures Rebind(store, acc, req, old(acc.instance.value.token), old(store.FindByToken(token, Some(Cookie))).Some?,
                   token, entropy)
  {
    var primaryToken := acc.instance.value.token;
    ghost var sessions, instances := store.sessions, store.instances;
    ghost var adopted := store.FindByToken(token, Some(Cookie));
    assert TokenSource(req, Some(token), Some(Cookie)) == Credential(Some(token), Some(Cookie));
    var resolved := FromRequest(store, req, Some(token), None, Some(Cookie), entropy, now);
    assert resolved.value.token != primaryToken;
    assert store.instances == instances + {resolved.value};
    store.Delete(primaryToken);
    assert store.sessions == Rebound(sessions, primaryToken, adopted.Some?, GenerateToken(entropy), req);
    assert store.instances == (set i | i in instances && i.token != primaryToken) + {resolved.value};
    acc.ReplaceInstance(resolved.value, store);
  }

  /** The `replace` branch of `_handle_crossdomain_route`, after validation. */
  method ReplaceAction(store: Store, acc: SessionAccessor, req: Request, token: string,
                       entropy: seq<Byte>, now: int)
    returns (reply: Reply)
    requires store.Valid() && acc.LinkedTo(store)
    requires |entropy| == TokenBytes && GenerateToken(entropy) !in store.sessions
    requires token != ""
    modifies store, acc
    ensures store.Valid() && acc.LinkedTo(store)
    ensures ReplaceEffect(store, acc, req, token, entropy, reply)
  {
    var current := acc.Get(TokenKey);
    if current.None? {
      // `session['_token']` raises KeyError.
      return ServerError;
    }
    if current.value != JStr(token) {
      if acc.instance.None? {
        // `session.instance` of a DummySession raises AttributeError.
        return ServerError;
      }
      store.Delete(acc.instance.value.token);
      var resolved := FromRequest(store, req, Some(token), None, Some(Cookie), entropy, now);
      acc.ReplaceInstance(resolved.value, store);
    }
    reply := ReplacedReply;
  }

  /**
   * The two-call handshake the injected client script drives from a
   * non-primary page: `check` against the primary with the origin's token,
   * then, when told `replace`, `replace` on the origin's own domain with the
   * token handed out. `primary` and `origin` are the sessions of the two
   * requests; they share the store. The handshake does not always converge:
   * when the primary's session is new and the origin's token names no cookie
   * session (an api session's token), the primary moves to a fresh token and
   * answers `use_current`, so the two sites end on different tokens.
   */
  method Reconcile(store: Store, primary: SessionAccessor, origin: SessionAccessor,
                   primaryReq: Request, originReq: Request, entropy: seq<Byte>, now: int)
    returns (checked: Reply, replaced: Option<Reply>)
    requires store.Valid() && primary.LinkedTo(store) && origin.LinkedTo(store) && primary != origin
    requires primary.instance.Some? && origin.instance.Some?
    requires primary.instance.value.token != "" && origin.instance.value.token != ""
    requires TokenKey in origin.mapping && origin.mapping[TokenKey] == JStr(origin.instance.value.token)
    requires |entropy| == TokenBytes && GenerateToken(entropy) !in store.sessions
    modifies store, primary, origin
    ensures store.Valid()
    ensures checked == UseCurrentReply || checked.ReplaceReply?
    ensures checked.ReplaceReply? <==> replaced == Some(ReplacedReply)
    ensures checked.UseCurrentReply? <==> replaced.None?
    ensures var p := old(primary.instance.value.token);
            var o := old(origin.instance.value.token);
            var f := old(CheckFacts(store, o, JBool(origin.isNew), p, primary.isNew));
            && (f.tokensEqual ==>
                  checked == UseCurrentReply && unchanged(store) && unchanged(primary) && unchanged(origin))
            && (Decide(f) == Replace ==>
                  && checked == ReplaceReply(p) && replaced == Some(ReplacedReply)
                  && (old(store.sessions[p]).kind == Cookie ==>
                        origin.instance.Some? && origin.instance.value.token == p))
            && (checked.ReplaceReply? && old(store.sessions[p]).kind == Cookie ==>
                  && checked.newToken == p && primary.instance == old(primary.instance)
                  && origin.instance.Some? && origin.instance.value.token == p
                  && origin.instance.value.domain == RegistrableDomain(originReq.host))
            && (Decide(f) == ReplacePrimary && old(store.FindByToken(o, Some(Cookie))).Some? ==>
                  && checked == UseCurrentReply && primary.instance.Some? && origin.instance.Some?
                  && primary.instance.value.token == o && origin.instance.value.token == o)
            && (Decide(f) == ReplacePrimary && old(store.FindByToken(o, Some(Cookie))).None? ==>
                  && checked == UseCurrentReply && replaced.None? && origin.instance == old(origin.instance)
                  && primary.instance.Some? && primary.instance.value.token == GenerateToken(entropy)
                  && primary.instance.value.token != o)
            && (Decide(f) == UseCurrent && !f.tokensEqual ==>
                  checked == UseCurrentReply && unchanged(store) && unchanged(primary) && unchanged(origin))
  {
    var token := origin.instance.value.token;
    checked := CheckAction(store, primary, primaryReq, token, JBool(origin.isNew), entropy, now);
    if checked.ReplaceReply? {
      var r := ReplaceAction(store, origin, originReq, checked.newToken, entropy, now);
      replaced := Some(r);
    } else {
      replaced := None;
    }
  }
}
