/**
 * Whole requests, each run as Flask runs it (`open_session`, the handler,
 * `save_session`) against one store, replaying the scenarios of
 * tests/test_crossdomain.py. The tests use the site family primary.test,
 * secondary.test and another.test; here the hosts are any site names of
 * that shape, and the random bytes of each request are parameters.
 */
module Scenarios {
  import opened Wrappers
  import opened Text
  import opened Model
  import opened SessionInterface
  import opened CrossDomain

  /** Flask's default `session_cookie_name`. */
  const CookieName: string := "session"

  /** A host such as `primary.test`: no port, no path, at most one dot. */
  predicate SiteName(h: string)
  {
    h != "" && ':' !in h && '/' !in h && multiset(h)['.'] <= 1
  }

  /** The Origin header a page of `host` sends. */
  function OriginOf(host: string): string
  {
    "https://" + host
  }

  /** A page request `GET https://<host>/` carrying the session cookie of that host, if any. */
  function PageRequest(host: string, cookie: Option<string>): Request
  {
    Request(host, cookie, None, "GET", Some("home"), None, None, "")
  }

  /** A handshake request `POST https://<host>/crossdomain` sent by script from `origin`. */
  function HandshakeRequest(host: string, cookie: Option<string>, origin: string): Request
  {
    Request(host, cookie, None, "POST", Some("flask_crossdomain"), Some(origin), None, "")
  }

  /** Random bytes for several requests: each the size `token_hex(32)` draws, no two alike. */
  predicate Draws(es: seq<seq<Byte>>)
  {
    && (forall i :: 0 <= i < |es| ==> |es[i]| == TokenBytes)
    && (forall i, j :: 0 <= i < j < |es| ==> es[i] != es[j])
  }

  /** The last path segment of `<scheme>//<host>` is the host. */
  lemma OriginTailOfUrl(scheme: string, host: string)
    requires '/' !in scheme && '/' !in host
    ensures OriginTail(scheme + "//" + host) == host
  {
    var parts := [scheme, "", host];
    assert Join(parts[1..][1..], '/') == host;
    assert Join(parts[1..], '/') == "/" + host;
    assert Join(parts, '/') == scheme + "//" + host;
    SplitJoin(parts, '/');
  }

  /** A site name is its own cookie domain, and its Origin names it for both the handshake and CORS. */
  lemma SiteNameFacts(h: string)
    requires SiteName(h)
    ensures RegistrableDomain(h) == h
    ensures OriginTail(OriginOf(h)) == h
    ensures OriginHost(OriginOf(h)) == h
  {
    RegistrableDomainOfDomain(h);
    assert OriginOf(h) == "https:" + "//" + h;
    OriginTailOfUrl("https:", h);
    SplitNoSeparator(h, ':');
  }

  /**
   * An Origin with a port passes the CORS test, which strips the port, but
   * not the Origin test of `check`, which compares the whole last path
   * segment with the allowed domains: the browser may read the answer, and
   * the answer is an error.
   */
  lemma PortedOriginPassesCorsOnly(ext: Extension, h: string, port: string, host: string, body: Body)
    requires SiteName(h) && h in ext.domains && '/' !in port
    requires forall d :: d in ext.domains ==> ':' !in d
    requires "action" in body && body["action"] == JStr("check")
    requires IsTokenField(Field(body, "current_token")) && Field(body, "current_is_new") != JNull
    ensures var origin := OriginOf(h) + ":" + port;
            && ext.CorsHeaders(Some("flask_crossdomain"), Some(origin)) == AllowOrigin(origin, "true", AllowedMethods)
            && Route(body, host, Some(host), Some(origin), ext.domains) == Reject(InvalidOrigin)
  {
    var hp := h + [':'] + port;
    assert OriginOf(h) + ":" + port == "https:" + "//" + hp;
    OriginTailOfUrl("https:", hp);
    assert ':' in hp;
    SplitAfterField(h, port, ':');
  }

  /** Adding a new key and removing it again gives the map back. */
  lemma RemoveAdded(m: map<string, Session>, k: string, v: Session)
    requires k !in m
    ensures m[k := v] - {k} == m
  {
    assert (m[k := v] - {k}).Keys == m.Keys;
  }

  /** The tokens drawn from different random bytes differ. */
  lemma DrawnTokensDiffer(es: seq<seq<Byte>>)
    requires Draws(es)
    ensures forall i, j :: 0 <= i < j < |es| ==> GenerateToken(es[i]) != GenerateToken(es[j])
  {
    forall i, j | 0 <= i < j < |es|
      ensures GenerateToken(es[i]) != GenerateToken(es[j])
    {
      GenerateTokenInjective(es[i], es[j]);
    }
  }

  /** A first visit to any host sets a cookie holding a fresh token, scoped to the host's registrable domain. */
  method FirstVisitSetsCookie(host: string, entropy: seq<Byte>, now: int) returns (eff: ResponseEffects)
    requires |entropy| == TokenBytes
    ensures eff.cookie == Some(SetCookie(CookieName, GenerateToken(entropy), RegistrableDomain(host)))
  {
    var store := new Store();
    var req := PageRequest(host, None);
    var acc := OpenSession(store, req, true, entropy, now);
    eff := SaveSession(store, acc, req, CookieName);
  }

  /** When cookies may not be set, a page request neither varies on nor sets a cookie, and stores nothing. */
  method NoCookieIfDisabled(host: string, entropy: seq<Byte>, now: int) returns (eff: ResponseEffects, stored: nat)
    requires |entropy| == TokenBytes
    ensures eff == ResponseEffects(false, None) && stored == 0
  {
    var ext := new Extension(None, false);
    ext.MaySetCookieLoader(false);
    var store := new Store();
    var req := PageRequest(host, None);
    var acc := OpenSession(store, req, ext.maySetCookie, entropy, now);
    eff := SaveSession(store, acc, req, CookieName);
    stored := |store.sessions|;
  }

  /**
   * The next visit with the cookie of the first resolves the same token,
   * creates no record and leaves the cookie alone.
   */
  method NextVisitKeepsCookie(host: string, e1: seq<Byte>, e2: seq<Byte>, now: int)
    returns (first: ResponseEffects, second: ResponseEffects, sameToken: bool, noNewRecords: bool)
    requires |e1| == TokenBytes && |e2| == TokenBytes && e1 != e2
    ensures first.cookie.Some? && first.cookie.value.value == GenerateToken(e1)
    ensures second.cookie.None? && sameToken && noNewRecords
  {
    var store := new Store();
    first := FreshVisit(store, host, e1, now);
    var before := store.sessions.Keys;
    var instancesBefore := store.instances;
    GenerateTokenInjective(e1, e2);
    var req := PageRequest(host, Some(GenerateToken(e1)));
    var acc := OpenKnownSession(store, req, GenerateToken(e1), e2, now);
    second := SaveSession(store, acc, req, CookieName);
    sameToken := acc.instance.Some? && acc.instance.value.token == GenerateToken(e1);
    noNewRecords := store.sessions.Keys == before && store.instances == instancesBefore;
  }

  /**
   * A value written by one request is read back by the next request of the
   * same visitor: `save_session` stores the changed mapping and the next
   * `open_session` resolves the same session from the cookie.
   */
  method SessionKeepsData(host: string, e1: seq<Byte>, e2: seq<Byte>, now: int) returns (value: Option<Json>)
    requires |e1| == TokenBytes && |e2| == TokenBytes && e1 != e2
    ensures value == Some(JStr("bar"))
  {
    GenerateTokenInjective(e1, e2);
    var t := GenerateToken(e1);
    var store := new Store();
    // GET /set/foo/bar
    var req1 := Request(host, None, None, "GET", Some("set"), None, None, "");
    var acc1 := OpenNewSession(store, req1, e1, now);
    acc1.Set("foo", JStr("bar"));
    ghost var inst := acc1.instance.value;
    var eff1 := SaveSession(store, acc1, req1, CookieName);
    assert inst in store.instances;
    // GET /get/foo with the cookie the first response set
    var req2 := Request(host, Some(t), None, "GET", Some("get"), None, None, "");
    var acc2 := OpenKnownSession(store, req2, t, e2, now);
    value := acc2.Get("foo");
  }

  /**
   * Opening the session of a request that presents the api session `token`
   * as `Authorization: Bearer <token>` binds the accessor to that session
   * and keeps its data and the set of sessions.
   */
  method OpenBearerSession(store: Store, req: Request, token: string, entropy: seq<Byte>, now: int)
    returns (acc: SessionAccessor)
    requires store.Valid() && token in store.sessions && store.sessions[token].kind == Api
    requires token != "" && ' ' !in token
    requires req.cookie.None? && req.authorization == Some("Bearer " + token)
    requires req.httpMethod != "OPTIONS" && !IsStaticEndpoint(req.endpoint)
    requires |entropy| == TokenBytes && GenerateToken(entropy) !in store.sessions
    modifies store
    ensures fresh(acc) && store.Valid() && acc.LinkedTo(store)
    ensures store.sessions.Keys == old(store.sessions).Keys
    ensures store.sessions[token].kind == Api && store.sessions[token].data == old(store.sessions[token].data)
    ensures acc.instance.Some? && acc.instance.value.token == token
    ensures acc.mapping == store.sessions[token].data && !acc.modified && !acc.accessed
  {
    BearerTokenOfHeader(token);
    assert TokenSource(req, None, None) == Credential(Some(token), Some(Api));
    assert store.FindByToken(token, Some(Api)) == Some(store.sessions[token]);
    acc := OpenSession(store, req, true, entropy, now);
  }

  /**
   * A `GET /get/<key>` under the Bearer header of api session `token`: the
   * value is read from the session's data, nothing is written back and no
   * cookie is set.
   */
  method BearerGet(store: Store, host: string, token: string, key: string, entropy: seq<Byte>, now: int)
    returns (value: Option<Json>, eff: ResponseEffects)
    requires store.Valid() && token in store.sessions && store.sessions[token].kind == Api
    requires token != "" && ' ' !in token
    requires |entropy| == TokenBytes && GenerateToken(entropy) !in store.sessions
    modifies store
    ensures store.Valid() && store.sessions.Keys == old(store.sessions).Keys
    ensures store.sessions[token].kind == Api && store.sessions[token].data == old(store.sessions[token].data)
    ensures value == (if key in old(store.sessions[token].data) then Some(old(store.sessions[token].data)[key]) else None)
    ensures eff.cookie.None?
  {
    var req := Request(host, None, Some("Bearer " + token), "GET", Some("get"), None, None, "");
    var acc := OpenBearerSession(store, req, token, entropy, now);
    value := acc.Get(key);
    eff := SaveSession(store, acc, req, CookieName);
  }

  /**
   * A `GET /set/<key>/<v>` under the Bearer header of api session `token`:
   * the session's data gets `key := v` and no cookie is set.
   */
  method BearerSet(store: Store, host: string, token: string, key: string, v: Json, entropy: seq<Byte>, now: int)
    returns (eff: ResponseEffects)
    requires store.Valid() && token in store.sessions && store.sessions[token].kind == Api
    requires token != "" && ' ' !in token
    requires |entropy| == TokenBytes && GenerateToken(entropy) !in store.sessions
    modifies store
    ensures store.Valid() && store.sessions.Keys == old(store.sessions).Keys
    ensures store.sessions[token].kind == Api && store.sessions[token].data == old(store.sessions[token].data)[key := v]
    ensures eff.cookie.None?
  {
    var req := Request(host, None, Some("Bearer " + token), "GET", Some("set"), None, None, "");
    var acc := OpenBearerSession(store, req, token, entropy, now);
    acc.Set(key, v);
    eff := SaveSession(store, acc, req, CookieName);
  }

  /**
   * An api session presented as `Authorization: Bearer <token>` is resolved
   * with its data and never gets a cookie; a value written under the same
   * header is read back by the next request.
   */
  method HeaderAuth(host: string, token: string, entropy: seq<Byte>, now: int)
    returns (value: Option<Json>, eff: ResponseEffects, rewritten: Option<Json>)
    requires |entropy| == TokenBytes && token != "" && ' ' !in token && token != GenerateToken(entropy)
    ensures value == Some(JStr("bar"))
    ensures eff.cookie.None?
    ensures rewritten == Some(JStr("baz"))
  {
    var store := new Store();
    store.Save(Session(Api, token, "", "", None, map["foo" := JStr("bar")], false));
    store.Commit();
    value, eff := BearerGet(store, host, token, "foo", entropy, now);
    var setEff := BearerSet(store, host, token, "foo", JStr("baz"), entropy, now);
    var getEff;
    rewritten, getEff := BearerGet(store, host, token, "foo", entropy, now);
  }

  // ---------------------------------------------------------------------------
  // The phases of the handshake scenarios, one request each.

  /** A store between requests: consistent, with every record committed. */
  ghost predicate Settled(store: Store)
    reads store
  {
    store.Valid() && forall t :: t in store.sessions ==> store.sessions[t].persisted
  }

  /** The visitor's cookie session `t`, still holding `{_token: t}`, with an instance for `domain`. */
  ghost predicate Visited(store: Store, t: string, domain: string)
    reads store
  {
    && t in store.sessions && store.sessions[t].kind == Cookie
    && store.sessions[t].data == map[TokenKey := JStr(t)]
    && store.HasInstance(t, domain)
  }

  /** The extension of the tests: `primary` is the primary servername and `others` may talk to it. */
  predicate Configured(ext: Extension, primary: string, others: seq<string>)
    reads ext
  {
    ext.primaryServername == Some(primary) && ext.domains == others && ext.maySetCookie
  }

  /** The extension as the tests set it up: a primary servername and the domains allowed to talk to it. */
  method TestExtension(primary: string, domains: seq<string>) returns (ext: Extension)
    ensures fresh(ext) && Configured(ext, primary, domains) && !ext.debug
  {
    ext := new Extension(Some(primary), false);
    ext.DomainLoader(domains);
  }

  /** A first page request without cookie: a fresh cookie session for the host, and its cookie. */
  method FreshVisit(store: Store, host: string, entropy: seq<Byte>, now: int) returns (eff: ResponseEffects)
    requires Settled(store) && |entropy| == TokenBytes && GenerateToken(entropy) !in store.sessions
    modifies store
    ensures Settled(store) && old(store.instances) <= store.instances
    ensures Visited(store, GenerateToken(entropy), RegistrableDomain(host))
    ensures store.sessions == old(store.sessions)[GenerateToken(entropy) := store.sessions[GenerateToken(entropy)]]
    ensures eff.cookie == Some(SetCookie(CookieName, GenerateToken(entropy), RegistrableDomain(host)))
  {
    var req := PageRequest(host, None);
    var acc := OpenNewSession(store, req, entropy, now);
    ghost var inst := acc.instance.value;
    ghost var afterOpen := store.sessions;
    eff := SaveSession(store, acc, req, CookieName);
    assert store.sessions == afterOpen by {
      forall u | u in store.sessions
        ensures store.sessions[u] == afterOpen[u]
      {
        assert afterOpen[u].persisted;
      }
    }
    assert inst in store.instances;
  }


  /**
   * Opening the session of a request that carries the cookie of a committed
   * cookie session with an instance for the request's domain changes nothing
   * in the store and binds the accessor to that session, not new.
   */
  method OpenKnownSession(store: Store, req: Request, t: string, entropy: seq<Byte>, now: int)
    returns (acc: SessionAccessor)
    requires Settled(store) && t != "" && req.cookie == Some(t) && req.httpMethod != "OPTIONS" && !IsStaticEndpoint(req.endpoint)
    requires t in store.sessions && store.sessions[t].kind == Cookie && store.HasInstance(t, RegistrableDomain(req.host))
    requires |entropy| == TokenBytes && GenerateToken(entropy) !in store.sessions
    modifies store
    ensures Settled(store) && store.sessions == old(store.sessions) && store.instances == old(store.instances)
    ensures fresh(acc) && acc.LinkedTo(store) && acc.instance.Some? && acc.instance.value.token == t
    ensures acc.mapping == store.sessions[t].data && !acc.isNew && !acc.modified && !acc.accessed
  {
    ghost var before := store.sessions;
    assert TokenSource(req, None, None) == Credential(Some(t), Some(Cookie));
    assert store.FindByToken(t, Some(Cookie)) == Some(before[t]);
    acc := OpenSession(store, req, true, entropy, now);
    assert store.sessions.Keys == before.Keys;
    forall u | u in store.sessions
      ensures store.sessions[u] == before[u]
    {
      assert before[u].persisted;
    }
    assert store.sessions == before;
  }

  /**
   * The handler's part of a `check` sent to the primary from a page of
   * `origin`, on the committed primary session `primaryToken`: when the
   * origin already uses that token or its session is new, nothing changes
   * and the answer is `use_current` or `replace` with the primary's token.
   */
  method CheckOnPrimary(ext: Extension, store: Store, acc: SessionAccessor, req: Request, primaryToken: string,
                        originToken: string, originNew: bool, entropy: seq<Byte>, now: int)
    returns (reply: Reply)
    requires ext.primaryServername == Some(req.host) && req.origin.Some? && OriginTail(req.origin.value) in ext.domains
    requires store.Valid() && acc.LinkedTo(store) && acc.instance.Some? && acc.instance.value.token == primaryToken
    requires primaryToken in store.sessions && !acc.isNew
    requires originToken in store.sessions && originToken != "" && (originToken == primaryToken || originNew)
    requires |entropy| == TokenBytes && GenerateToken(entropy) !in store.sessions
    modifies store, acc
    ensures unchanged(store) && unchanged(acc)
    ensures reply == if primaryToken == originToken then UseCurrentReply else ReplaceReply(primaryToken)
  {
    var body := map["action" := JStr("check"), "current_token" := JStr(originToken), "current_is_new" := JBool(originNew)];
    assert Route(body, req.host, ext.primaryServername, req.origin, ext.domains) == Check(originToken, JBool(originNew));
    ghost var o := Decide(CheckFacts(store, originToken, JBool(originNew), primaryToken, false));
    assert o == if primaryToken == originToken then UseCurrent else Replace;
    reply := ext.HandleCrossdomainRoute(store, acc, req, body, entropy, now);
  }

  /**
   * `check` sent to the primary from a page of `origin`, by a visitor whose
   * primary session `primaryToken` is already committed. Nothing is stored or
   * deleted, no cookie is set, and the answer is `use_current` when the
   * origin already uses the primary's token and otherwise, the origin session
   * being new, `replace` with the primary's token.
   */
  method CheckKnownSession(ext: Extension, store: Store, primary: string, primaryToken: string,
                           origin: string, originToken: string, originNew: bool,
                           e1: seq<Byte>, e2: seq<Byte>, now: int)
    returns (reply: Reply, eff: ResponseEffects)
    requires Configured(ext, primary, ext.domains) && origin in ext.domains && SiteName(primary) && SiteName(origin)
    requires Settled(store) && Visited(store, primaryToken, primary) && primaryToken != ""
    requires originToken in store.sessions && originToken != "" && (originToken == primaryToken || originNew)
    requires |e1| == TokenBytes && |e2| == TokenBytes
    requires GenerateToken(e1) !in store.sessions && GenerateToken(e2) !in store.sessions
    modifies store
    ensures Settled(store) && store.sessions == old(store.sessions) && store.instances == old(store.instances)
    ensures reply == if primaryToken == originToken then UseCurrentReply else ReplaceReply(primaryToken)
    ensures eff.cookie.None?
  {
    SiteNameFacts(primary);
    SiteNameFacts(origin);
    var req := HandshakeRequest(primary, Some(primaryToken), OriginOf(origin));
    var acc := OpenKnownSession(store, req, primaryToken, e1, now);
    reply := CheckOnPrimary(ext, store, acc, req, primaryToken, originToken, originNew, e2, now);
    eff := SaveSession(store, acc, req, CookieName);
  }

  /**
   * `replace` sent to a site whose current session `current` differs from
   * the committed cookie session `token`: the current session is deleted,
   * `token` gets an instance for the site, and the response moves the
   * site's cookie to `token`.
   */
  method ReplaceOnSite(ext: Extension, store: Store, host: string, current: string, token: string,
                       e1: seq<Byte>, e2: seq<Byte>, now: int)
    returns (reply: Reply, eff: ResponseEffects)
    requires Configured(ext, ext.primaryServername.GetOr(""), ext.domains) && SiteName(host) && host in ext.domains
    requires Settled(store) && Visited(store, current, host) && current != "" && current != token
    requires token in store.sessions && store.sessions[token].kind == Cookie && token != ""
    requires |e1| == TokenBytes && |e2| == TokenBytes
    requires GenerateToken(e1) !in store.sessions && GenerateToken(e2) !in store.sessions
    modifies store
    ensures store.Valid() && store.sessions == old(store.sessions) - {current}
    ensures store.HasInstance(token, host)
    ensures reply == ReplacedReply
    ensures eff.cookie == Some(SetCookie(CookieName, token, host))
  {
    SiteNameFacts(host);
    var req := HandshakeRequest(host, Some(current), OriginOf(host));
    var acc := OpenKnownSession(store, req, current, e1, now);
    var body := map["action" := JStr("replace"), "token" := JStr(token)];
    assert Route(body, host, ext.primaryServername, Some(OriginOf(host)), ext.domains) == ReplaceWith(token);
    reply := ext.HandleCrossdomainRoute(store, acc, req, body, e2, now);
    ghost var between := store.sessions;
    eff := SaveSession(store, acc, req, CookieName);
    assert store.sessions == between;
    assert store.HasInstance(token, host) by {
      assert acc.instance.value in store.instances;
    }
  }

  /** Two first visits, to `first` and then to `second`: two committed cookie sessions, one per site. */
  method TwoVisits(first: string, second: string, e1: seq<Byte>, e2: seq<Byte>, now: int)
    returns (store: Store)
    requires SiteName(first) && SiteName(second)
    requires |e1| == TokenBytes && |e2| == TokenBytes && e1 != e2
    ensures fresh(store) && Settled(store)
    ensures store.sessions.Keys == {GenerateToken(e1), GenerateToken(e2)}
    ensures Visited(store, GenerateToken(e1), first)
    ensures Visited(store, GenerateToken(e2), second)
  {
    SiteNameFacts(first);
    SiteNameFacts(second);
    var t1, t2 := GenerateToken(e1), GenerateToken(e2);
    GenerateTokenInjective(e1, e2);
    store := new Store();
    var eff1 := FreshVisit(store, first, e1, now);
    ghost var session1 := store.sessions[t1];
    ghost var inst :| inst in store.instances && inst.token == t1 && inst.domain == RegistrableDomain(first);
    var eff2 := FreshVisit(store, second, e2, now);
    assert store.sessions[t1] == session1;
    assert inst in store.instances;
  }

  /**
   * A visitor browses the primary site, then a secondary one; the secondary
   * page's script asks the primary with `check` and, told to `replace`,
   * adopts the primary's token: the secondary's response sets its cookie to
   * the primary's token, and only the primary's session is left.
   */
  method VisitPrimaryThenSecondary(primary: string, secondary: string, es: seq<seq<Byte>>, now: int)
    returns (checked: Reply, replaced: Reply, eff: ResponseEffects, sessions: set<string>)
    requires SiteName(primary) && SiteName(secondary) && primary != secondary
    requires |es| == 6 && Draws(es)
    ensures checked == ReplaceReply(GenerateToken(es[0]))
    ensures replaced == ReplacedReply
    ensures eff.cookie == Some(SetCookie(CookieName, GenerateToken(es[0]), secondary))
    ensures sessions == {GenerateToken(es[0])}
  {
    var t1, t2 := GenerateToken(es[0]), GenerateToken(es[1]);
    var store := TwoVisits(primary, secondary, es[0], es[1], now);
    var ext := TestExtension(primary, [primary, secondary]);
    forall k | 2 <= k < 6
      ensures GenerateToken(es[k]) !in store.sessions
    {
      GenerateTokenInjective(es[0], es[k]);
      GenerateTokenInjective(es[1], es[k]);
    }
    checked, replaced, eff := HandshakeFromSecondary(ext, store, primary, secondary, t1, t2,
                                                     es[2], es[3], es[4], es[5], now);
    sessions := store.sessions.Keys;
  }

  /**
   * The handshake of a secondary page whose session `secondaryToken` differs
   * from the primary's `primaryToken`, both committed: `check` answers
   * `replace` with the primary's token and `replace` moves the secondary
   * onto it, deleting the secondary's own session.
   */
  method HandshakeFromSecondary(ext: Extension, store: Store, primary: string, secondary: string,
                                primaryToken: string, secondaryToken: string,
                                e1: seq<Byte>, e2: seq<Byte>, e3: seq<Byte>, e4: seq<Byte>, now: int)
    returns (checked: Reply, replaced: Reply, eff: ResponseEffects)
    requires Configured(ext, primary, [primary, secondary]) && SiteName(primary) && SiteName(secondary)
    requires Settled(store) && store.sessions.Keys == {primaryToken, secondaryToken}
    requires Visited(store, primaryToken, primary) && Visited(store, secondaryToken, secondary)
    requires primaryToken != secondaryToken && primaryToken != "" && secondaryToken != ""
    requires |e1| == TokenBytes && |e2| == TokenBytes && |e3| == TokenBytes && |e4| == TokenBytes
    requires GenerateToken(e1) !in store.sessions && GenerateToken(e2) !in store.sessions
    requires GenerateToken(e3) !in store.sessions && GenerateToken(e4) !in store.sessions
    modifies store
    ensures store.sessions.Keys == {primaryToken}
    ensures checked == ReplaceReply(primaryToken)
    ensures replaced == ReplacedReply
    ensures eff.cookie == Some(SetCookie(CookieName, primaryToken, secondary))
  {
    ghost var inst :| inst in store.instances && inst.token == secondaryToken && inst.domain == secondary;
    var eff1: ResponseEffects;
    checked, eff1 := CheckKnownSession(ext, store, primary, primaryToken, secondary, secondaryToken, true, e1, e2, now);
    assert inst in store.instances;
    replaced, eff := ReplaceOnSite(ext, store, secondary, secondaryToken, primaryToken, e3, e4, now);
  }

  /** Opening the session of a request without any credential: a fresh cookie session, committed. */
  method OpenNewSession(store: Store, req: Request, entropy: seq<Byte>, now: int) returns (acc: SessionAccessor)
    requires Settled(store) && req.cookie.None? && req.authorization.None?
    requires req.httpMethod != "OPTIONS" && !IsStaticEndpoint(req.endpoint)
    requires |entropy| == TokenBytes && GenerateToken(entropy) !in store.sessions
    modifies store
    ensures Settled(store) && old(store.instances) <= store.instances
    ensures store.sessions == old(store.sessions)[GenerateToken(entropy) := NewSession(GenerateToken(entropy), req).(persisted := true)]
    ensures fresh(acc) && acc.LinkedTo(store) && acc.instance.Some? && acc.instance.value.token == GenerateToken(entropy)
    ensures acc.instance.value.domain == RegistrableDomain(req.host)
    ensures acc.isNew && !acc.modified && !acc.accessed && acc.mapping == map[TokenKey := JStr(GenerateToken(entropy))]
  {
    acc := OpenSession(store, req, true, entropy, now);
    var t := GenerateToken(entropy);
    forall u | u in old(store.sessions)
      ensures store.sessions[u] == old(store.sessions)[u]
    {
      assert old(store.sessions)[u].persisted;
    }
  }

  /**
   * The handler's part of a `check` sent to the primary from a page of
   * `origin` on a primary session `p` created by this very request: the
   * primary adopts the origin's committed cookie session, drops `p`, and
   * answers `use_current`.
   */
  method AdoptOnPrimary(ext: Extension, store: Store, acc: SessionAccessor, req: Request, p: string,
                        originToken: string, originNew: bool, entropy: seq<Byte>, now: int)
    returns (reply: Reply)
    requires ext.primaryServername == Some(req.host) && req.origin.Some? && OriginTail(req.origin.value) in ext.domains
    requires store.Valid() && acc.LinkedTo(store) && acc.instance.Some? && acc.instance.value.token == p
    requires p in store.sessions && acc.isNew
    requires originToken in store.sessions && store.sessions[originToken].kind == Cookie
    requires originToken != "" && originToken != p
    requires |entropy| == TokenBytes && GenerateToken(entropy) !in store.sessions
    modifies store, acc
    ensures store.Valid() && acc.LinkedTo(store)
    ensures reply == UseCurrentReply
    ensures store.sessions == old(store.sessions) - {p}
    ensures forall i :: i in old(store.instances) && i.token != p ==> i in store.instances
    ensures acc.instance.Some? && acc.instance.value.token == originToken
    ensures acc.instance.value.domain == RegistrableDomain(req.host)
    ensures acc.mapping == store.sessions[originToken].data && !acc.modified && acc.isNew
  {
    var body := map["action" := JStr("check"), "current_token" := JStr(originToken), "current_is_new" := JBool(originNew)];
    assert Route(body, req.host, ext.primaryServername, req.origin, ext.domains) == Check(originToken, JBool(originNew));
    reply := ext.HandleCrossdomainRoute(store, acc, req, body, entropy, now);
  }

  /**
   * `check` sent to the primary from a page of `origin` by a visitor without
   * a primary cookie: the primary's response sets its cookie to the origin's
   * token, which now has an instance for the primary, and the store keeps
   * exactly the sessions it had.
   */
  method CheckNewPrimary(ext: Extension, store: Store, primary: string, origin: string, originToken: string,
                         originNew: bool, e1: seq<Byte>, e2: seq<Byte>, now: int)
    returns (reply: Reply, eff: ResponseEffects)
    requires Configured(ext, primary, ext.domains) && origin in ext.domains && SiteName(primary) && SiteName(origin)
    requires Settled(store) && originToken in store.sessions && store.sessions[originToken].kind == Cookie
    requires originToken != ""
    requires |e1| == TokenBytes && |e2| == TokenBytes && GenerateToken(e1) != GenerateToken(e2)
    requires GenerateToken(e1) !in store.sessions && GenerateToken(e2) !in store.sessions
    modifies store
    ensures Settled(store) && store.sessions == old(store.sessions) && old(store.instances) <= store.instances
    ensures store.HasInstance(originToken, primary)
    ensures reply == UseCurrentReply
    ensures eff.cookie == Some(SetCookie(CookieName, originToken, primary))
  {
    SiteNameFacts(origin);
    var req := HandshakeRequest(primary, None, OriginOf(origin));
    var acc;
    acc, reply := OpenAndAdopt(ext, store, req, originToken, originNew, e1, e2, now);
    ghost var inst := acc.instance.value;
    ghost var instances := store.instances;
    eff := SaveSession(store, acc, req, CookieName);
    assert store.sessions == old(store.sessions) by {
      forall u | u in store.sessions
        ensures store.sessions[u] == old(store.sessions)[u]
      {
        assert old(store.sessions)[u].persisted;
      }
    }
    assert inst in store.instances;
  }

  /**
   * The first two steps of a `check` from a visitor without a primary
   * cookie: `open_session` creates a primary session, and the handler
   * replaces it with the origin's session, so the store holds the sessions it
   * had before the request.
   */
  method OpenAndAdopt(ext: Extension, store: Store, req: Request, originToken: string, originNew: bool,
                      e1: seq<Byte>, e2: seq<Byte>, now: int)
    returns (acc: SessionAccessor, reply: Reply)
    requires req.cookie.None? && req.authorization.None? && req.httpMethod == "POST"
    requires req.endpoint == Some("flask_crossdomain") && SiteName(req.host)
    requires ext.primaryServername == Some(req.host) && req.origin.Some? && OriginTail(req.origin.value) in ext.domains
    requires Settled(store) && originToken in store.sessions && store.sessions[originToken].kind == Cookie
    requires originToken != ""
    requires |e1| == TokenBytes && |e2| == TokenBytes && GenerateToken(e1) != GenerateToken(e2)
    requires GenerateToken(e1) !in store.sessions && GenerateToken(e2) !in store.sessions
    modifies store
    ensures store.Valid() && store.sessions == old(store.sessions) && old(store.instances) <= store.instances
    ensures fresh(acc) && acc.LinkedTo(store) && acc.instance.Some?
    ensures acc.instance.value.token == originToken && acc.instance.value.domain == req.host
    ensures acc.isNew && !acc.modified && acc.mapping == store.sessions[originToken].data
    ensures reply == UseCurrentReply
  {
    SiteNameFacts(req.host);
    var p := GenerateToken(e1);
    ghost var instances := store.instances;
    acc := OpenNewSession(store, req, e1, now);
    ghost var afterOpen, openedInstances := store.sessions, store.instances;
    assert instances <= openedInstances;
    reply := AdoptOnPrimary(ext, store, acc, req, p, originToken, originNew, e2, now);
    RemoveAdded(old(store.sessions), p, NewSession(p, req).(persisted := true));
    forall i | i in instances
      ensures i in store.instances
    {
      assert i.token != p;
    }
  }


  /**
   * A visitor browses a secondary site first; its script's `check` makes the
   * primary adopt the secondary's session, so the primary's cookie holds the
   * secondary's token, and that one session serves both sites.
   */
  method SecondaryFirst(primary: string, secondary: string, e1: seq<Byte>, e2: seq<Byte>, e3: seq<Byte>, now: int)
    returns (ext: Extension, store: Store, secondaryCookie: ResponseEffects, checked: Reply,
             primaryCookie: ResponseEffects)
    requires SiteName(primary) && SiteName(secondary) && primary != secondary
    requires |e1| == TokenBytes && |e2| == TokenBytes && |e3| == TokenBytes && e1 != e2 && e1 != e3 && e2 != e3
    ensures fresh(ext) && fresh(store) && Configured(ext, primary, [primary, secondary])
    ensures Settled(store) && store.sessions.Keys == {GenerateToken(e1)}
    ensures Visited(store, GenerateToken(e1), primary) && Visited(store, GenerateToken(e1), secondary)
    ensures secondaryCookie.cookie == Some(SetCookie(CookieName, GenerateToken(e1), secondary))
    ensures checked == UseCurrentReply
    ensures primaryCookie.cookie == Some(SetCookie(CookieName, GenerateToken(e1), primary))
  {
    GenerateTokenInjective(e1, e2);
    GenerateTokenInjective(e1, e3);
    GenerateTokenInjective(e2, e3);
    SiteNameFacts(secondary);
    var t := GenerateToken(e1);
    store := new Store();
    secondaryCookie := FreshVisit(store, secondary, e1, now);
    ghost var inst :| inst in store.instances && inst.token == t && inst.domain == secondary;
    ext := TestExtension(primary, [primary, secondary]);
    checked, primaryCookie := CheckNewPrimary(ext, store, primary, secondary, t, false, e2, e3, now);
    assert inst in store.instances;
  }

  /**
   * A page request to `host` carrying the cookie of the visitor's committed
   * session `t`, which already has an instance there: the store is left as
   * it was and no cookie is set, so the browser keeps `t` for that site.
   */
  method PageVisit(store: Store, host: string, t: string, entropy: seq<Byte>, now: int)
    returns (eff: ResponseEffects)
    requires SiteName(host) && Settled(store) && Visited(store, t, host) && t != ""
    requires |entropy| == TokenBytes && GenerateToken(entropy) !in store.sessions
    modifies store
    ensures Settled(store) && store.sessions == old(store.sessions) && store.instances == old(store.instances)
    ensures eff.cookie.None?
  {
    SiteNameFacts(host);
    var req := PageRequest(host, Some(t));
    var acc := OpenKnownSession(store, req, t, entropy, now);
    eff := SaveSession(store, acc, req, CookieName);
  }

  /**
   * The same visitor comes back to the secondary site: its page keeps the
   * cookie, and its script's `check` answers `use_current`.
   */
  method Revisit(ext: Extension, store: Store, primary: string, secondary: string, t: string,
                 e1: seq<Byte>, e2: seq<Byte>, e3: seq<Byte>, now: int)
    returns (revisitSecondary: ResponseEffects, rechecked: Reply)
    requires Configured(ext, primary, [primary, secondary]) && SiteName(primary) && SiteName(secondary)
    requires Settled(store) && store.sessions.Keys == {t} && t != ""
    requires Visited(store, t, primary) && Visited(store, t, secondary)
    requires |e1| == TokenBytes && |e2| == TokenBytes && |e3| == TokenBytes
    requires GenerateToken(e1) != t && GenerateToken(e2) != t && GenerateToken(e3) != t
    modifies store
    ensures Settled(store) && store.sessions.Keys == {t}
    ensures revisitSecondary.cookie.None?
    ensures rechecked == UseCurrentReply
  {
    // GET https://<secondary>/ with the cookie the first visit set
    revisitSecondary := PageVisit(store, secondary, t, e1, now);
    // the secondary page's script checks again
    var eff: ResponseEffects;
    rechecked, eff := CheckKnownSession(ext, store, primary, t, secondary, t, false, e2, e3, now);
  }

  /**
   * Secondary first, then the primary page, then a revisit of the secondary:
   * the primary's cookie holds the secondary's token, no later response
   * moves either cookie, and both sites end on the same token.
   */
  method VisitSecondaryThenPrimary(primary: string, secondary: string, es: seq<seq<Byte>>, now: int)
    returns (secondaryCookie: ResponseEffects, checked: Reply, primaryCookie: ResponseEffects,
             revisitPrimary: ResponseEffects, revisitSecondary: ResponseEffects, rechecked: Reply)
    requires SiteName(primary) && SiteName(secondary) && primary != secondary
    requires |es| == 7 && Draws(es)
    ensures secondaryCookie.cookie == Some(SetCookie(CookieName, GenerateToken(es[0]), secondary))
    ensures checked == UseCurrentReply
    ensures primaryCookie.cookie == Some(SetCookie(CookieName, GenerateToken(es[0]), primary))
    ensures primaryCookie.cookie.value.value == secondaryCookie.cookie.value.value
    ensures revisitPrimary.cookie.None? && revisitSecondary.cookie.None?
    ensures rechecked == UseCurrentReply
  {
    DrawnTokensDiffer(es);
    var t := GenerateToken(es[0]);
    var ext, store;
    ext, store, secondaryCookie, checked, primaryCookie := SecondaryFirst(primary, secondary, es[0], es[1], es[2], now);
    // GET https://<primary>/ with the cookie the handshake set
    revisitPrimary := PageVisit(store, primary, t, es[3], now);
    revisitSecondary, rechecked := Revisit(ext, store, primary, secondary, t, es[4], es[5], es[6], now);
  }
}
