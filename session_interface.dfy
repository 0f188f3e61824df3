/**
 * The per-request session lifecycle of flask_crossdomain_session/session_interface.py:
 * the mapping view that application code reads and writes
 * (SessionValueAccessor, or DummySession when no session may be used), and
 * the two hooks Flask calls around every request, `open_session` and
 * `save_session`.
 */
module SessionInterface {
  import opened Wrappers
  import opened Text
  import opened Model

  /**
   * The session object a request sees: a mapping plus the `new`, `modified`
   * and `accessed` flags. `instance` is the SessionInstance it is bound to; a
   * DummySession is bound to none.
   */
  class SessionAccessor {
    var instance: Option<Instance>
    var mapping: Data
    var isNew: bool
    var modified: bool
    var accessed: bool

    predicate IsDummy()
      reads this
    {
      instance.None?
    }

    /** The instance the accessor is bound to is still in the store. */
    ghost predicate LinkedTo(store: Store)
      reads this, store
    {
      instance.Some? ==> instance.value in store.instances
    }

    /** `SessionValueAccessor(instance, is_new)`: a copy of the session's data, nothing read or changed yet. */
    constructor (inst: Instance, data: Data, isNew: bool)
      ensures instance == Some(inst) && mapping == data && this.isNew == isNew
      ensures !modified && !accessed
    {
      instance := Some(inst);
      mapping := data;
      this.isNew := isNew;
      modified := false;
      accessed := false;
    }

    /** `DummySession()`: an empty mapping that is never persisted. */
    constructor Dummy()
      ensures instance.None? && mapping == map[] && !isNew && !modified && !accessed
    {
      instance := None;
      mapping := map[];
      isNew := false;
      modified := false;
      accessed := false;
    }

    /** `session[key]`: reading marks the session accessed; a missing key is a KeyError (None here). */
    method Get(key: string) returns (v: Option<Json>)
      modifies this`accessed
      ensures accessed
      ensures v.Some? <==> key in mapping
      ensures v.Some? ==> v.value == mapping[key]
    {
      accessed := true;
      v := if key in mapping then Some(mapping[key]) else None;
    }

    /** `session[key] = value`: writing marks the session modified and accessed. */
    method Set(key: string, value: Json)
      modifies this`mapping, this`modified, this`accessed
      ensures mapping == old(mapping)[key := value]
      ensures modified && accessed
    {
      mapping := mapping[key := value];
      modified := true;
      accessed := true;
    }

    /**
     * `replace_instance`: binds the accessor to another instance, replaces the
     * mapping by that instance's session data and clears `modified` and
     * `accessed`; `new` is kept.
     */
    method ReplaceInstance(newInstance: Instance, store: Store)
      requires newInstance.token in store.sessions
      modifies this`instance, this`mapping, this`modified, this`accessed
      ensures instance == Some(newInstance)
      ensures mapping == store.sessions[newInstance.token].data
      ensures !modified && !accessed && isNew == old(isNew)
    {
      instance := Some(newInstance);
      mapping := map[];
      mapping := mapping + store.sessions[newInstance.token].data;
      modified := false;
      accessed := false;
    }
  }

  /** A static-file endpoint, of the application or of a blueprint. */
  predicate IsStaticEndpoint(endpoint: Option<string>)
  {
    Present(endpoint) && (EndsWith(endpoint.value, ".static") || endpoint.value == "static")
  }

  /**
   * `open_session`: a dummy session for static files, pre-flight requests and
   * when cookies may not be set; otherwise the resolved instance, with
   * `new` captured before the eager commit.
   */
  method OpenSession(store: Store, req: Request, maySetCookie: bool, entropy: seq<Byte>, now: int)
    returns (acc: SessionAccessor)
    requires store.Valid()
    requires |entropy| == TokenBytes && GenerateToken(entropy) !in store.sessions
    modifies store
    ensures fresh(acc) && store.Valid() && acc.LinkedTo(store)
    ensures acc.IsDummy() <==> IsStaticEndpoint(req.endpoint) || req.httpMethod == "OPTIONS" || !maySetCookie
    ensures acc.IsDummy() ==> unchanged(store) && acc.mapping == map[] && !acc.isNew
    ensures !acc.modified && !acc.accessed
    ensures !acc.IsDummy() ==>
              var inst := acc.instance.value;
              && inst.domain == RegistrableDomain(req.host)
              && acc.mapping == store.sessions[inst.token].data
              && acc.isNew == (inst.token !in old(store.sessions) || !old(store.sessions)[inst.token].persisted)
              && (inst.token in old(store.sessions) || inst.token == GenerateToken(entropy))
              && (forall t :: t in store.sessions ==> store.sessions[t].persisted)
    ensures !acc.IsDummy() && TokenSource(req, None, None).token.None? ==>
              acc.isNew && acc.instance.value.token == GenerateToken(entropy)
    ensures !acc.IsDummy() ==>
              var cred := TokenSource(req, None, None);
              var found := if Present(cred.token) then old(store.FindByToken(cred.token.value, cred.kind)) else None;
              var inst := acc.instance.value;
              && inst in store.instances
              && old(store.sessions).Keys <= store.sessions.Keys
              && (forall t :: t in old(store.sessions) ==> store.sessions[t] == old(store.sessions)[t].(persisted := true))
              && (found.None? ==>
                    && inst.token == GenerateToken(entropy) && acc.isNew
                    && store.sessions.Keys == old(store.sessions).Keys + {inst.token}
                    && store.sessions[inst.token] == NewSession(inst.token, req).(persisted := true)
                    && store.instances == old(store.instances) + {inst})
              && (found.Some? ==>
                    && inst.token == found.value.token && acc.isNew == !found.value.persisted
                    && store.sessions.Keys == old(store.sessions).Keys)
              && (found.Some? && old(store.HasInstance(found.value.token, inst.domain)) ==>
                    store.instances == old(store.instances))
              && (found.Some? && !old(store.HasInstance(found.value.token, inst.domain)) ==>
                    store.instances == old(store.instances) + {inst})
  {
    if IsStaticEndpoint(req.endpoint) || req.httpMethod == "OPTIONS" || !maySetCookie {
      acc := new SessionAccessor.Dummy();
      return;
    }
    ghost var before := store.sessions;
    var r := FromRequest(store, req, None, None, None, entropy, now);
    var inst := r.value;
    var isNew := store.IsNew(inst.token);
    ghost var resolved := store.sessions;
    assert before.Keys <= resolved.Keys && forall t :: t in before ==> resolved[t] == before[t];
    store.Commit();
    acc := new SessionAccessor(inst, store.sessions[inst.token].data, isNew);
  }

  /** `response.set_cookie(name, value, domain=...)`; the other cookie attributes are configuration. */
  datatype SetCookie = SetCookie(name: string, value: string, domain: string)

  /** What `save_session` does to the response: the `Vary: Cookie` header and the cookie it sets. */
  datatype ResponseEffects = ResponseEffects(varyCookie: bool, cookie: Option<SetCookie>)

  /**
   * `save_session`: nothing for a dummy session; otherwise `Vary: Cookie` when
   * a cookie session was read, the data written back and committed when the
   * session is new or was changed, and the cookie (re)written for a cookie
   * session that is new or whose browser does not hold its token yet.
   */
  method SaveSession(store: Store, acc: SessionAccessor, req: Request, cookieName: string)
    returns (eff: ResponseEffects)
    requires store.Valid() && acc.LinkedTo(store)
    modifies store
    ensures store.Valid() && acc.LinkedTo(store)
    ensures acc.IsDummy() ==> eff == ResponseEffects(false, None) && unchanged(store)
    ensures !acc.IsDummy() ==>
              var inst := acc.instance.value;
              var sess := old(store.sessions)[inst.token];
              var write := acc.isNew || (acc.modified && acc.mapping != sess.data);
              && (eff.varyCookie <==> acc.accessed && sess.kind == Cookie)
              && (eff.cookie.Some? <==> sess.kind == Cookie && (acc.isNew || req.cookie != Some(sess.token)))
              && (eff.cookie.Some? ==> eff.cookie.value == SetCookie(cookieName, sess.token, inst.domain))
              && (!write ==> unchanged(store))
              && (write ==>
                    && store.instances == old(store.instances)
                    && store.sessions.Keys == old(store.sessions).Keys
                    && store.sessions[inst.token] == sess.(data := acc.mapping, persisted := true)
                    && (forall t :: t in store.sessions && t != inst.token ==>
                          store.sessions[t] == old(store.sessions)[t].(persisted := true)))
              && (acc.isNew || acc.modified ==> store.sessions[inst.token].data == acc.mapping)
  {
    if acc.IsDummy() {
      return ResponseEffects(false, None);
    }
    var inst := acc.instance.value;
    var sess := store.sessions[inst.token];
    var vary := acc.accessed && sess.kind == Cookie;
    if acc.isNew || (acc.modified && acc.mapping != sess.data) {
      store.Save(sess.(data := acc.mapping));
      store.Commit();
    }
    var tokenChanged := req.cookie != Some(sess.token);
    var cookie := None;
    if sess.kind == Cookie && (acc.isNew || req.cookie.None? || tokenChanged) {
      cookie := Some(SetCookie(cookieName, sess.token, inst.domain));
    }
    eff := ResponseEffects(vary, cookie);
  }
}
