/**
 * The session data model of flask_crossdomain_session/model.py: the two
 * persisted entities (Session and SessionInstance), the token generator, the
 * store contract the library needs from its persistence layer, and the
 * resolver `SessionInstanceMixin.from_request` that maps a request to the
 * session instance that applies to it.
 */
module Model {
  import opened Wrappers
  import opened Text

  datatype SessionType = Cookie | Api

  /** The JSON values that session data and handshake bodies carry. */
  datatype Json = JNull | JBool(b: bool) | JNum(n: int) | JStr(s: string)

  /** Python truthiness of a JSON value. */
  predicate Truthy(j: Json)
  {
    match j
    case JNull => false
    case JBool(b) => b
    case JNum(n) => n != 0
    case JStr(s) => s != ""
  }

  /** Python truthiness of an optional string (`None` and `''` are false). */
  predicate Present(s: Option<string>)
  {
    s.Some? && s.value != ""
  }

  type Data = map<string, Json>
  type UserId = nat

  /** The data key that mirrors the session's token. */
  const TokenKey: string := "_token"

  /**
   * A Session record. `persisted` says whether the storage has assigned it an
   * id yet; `is_new` holds exactly when it has not.
   */
  datatype Session = Session(
    kind: SessionType,
    token: string,
    ip: string,
    userAgent: string,
    user: Option<UserId>,
    data: Data,
    persisted: bool)

  /** A SessionInstance: the binding of the session named by `token` to one registrable domain. */
  datatype Instance = Instance(token: string, domain: string, createdAt: int)

  /**
   * What the library reads of an HTTP request: the host, the value of the
   * session cookie and of the Authorization and Origin headers when present,
   * the method, the endpoint name Flask matched, and the provenance strings.
   */
  datatype Request = Request(
    host: string,
    cookie: Option<string>,
    authorization: Option<string>,
    httpMethod: string,
    endpoint: Option<string>,
    origin: Option<string>,
    remoteAddr: Option<string>,
    userAgent: string)

  // ---------------------------------------------------------------------------
  // Tokens: `generate_token` sets `token_hex(32)`.

  type Byte = b: int | 0 <= b < 256

  /** `token_hex(32)` draws 32 random bytes. */
  const TokenBytes: nat := 32

  predicate IsHexChar(c: char)
  {
    '0' <= c <= '9' || 'a' <= c <= 'f'
  }

  /** The shape of every generated token: 64 lower-case hexadecimal characters. */
  predicate IsToken(t: string)
  {
    |t| == 2 * TokenBytes && forall i :: 0 <= i < |t| ==> IsHexChar(t[i])
  }

  function HexDigit(n: int): (c: char)
    requires 0 <= n < 16
    ensures IsHexChar(c)
  {
    if n < 10 then ('0' as int + n) as char else ('a' as int + n - 10) as char
  }

  function HexValue(c: char): (r: Option<int>)
    ensures r.Some? <==> IsHexChar(c)
    ensures r.Some? ==> 0 <= r.value < 16
  {
    if '0' <= c <= '9' then Some(c as int - '0' as int)
    else if 'a' <= c <= 'f' then Some(c as int - 'a' as int + 10)
    else None
  }

  /** `secrets.token_hex`: each byte as two lower-case hex digits, high nibble first. */
  function TokenHex(bytes: seq<Byte>): (t: string)
    ensures |t| == 2 * |bytes|
    ensures forall i :: 0 <= i < |t| ==> IsHexChar(t[i])
  {
    if bytes == [] then ""
    else [HexDigit(bytes[0] / 16), HexDigit(bytes[0] % 16)] + TokenHex(bytes[1..])
  }

  /** Reads a hex string back into bytes; the partner of TokenHex. */
  function HexDecode(t: string): Option<seq<Byte>>
    decreases |t|
  {
    if |t| == 0 then Some([])
    else if |t| == 1 then None
    else match (HexValue(t[0]), HexValue(t[1]), HexDecode(t[2..]))
      case (Some(hi), Some(lo), Some(rest)) => Some([hi * 16 + lo] + rest)
      case _ => None
  }

  /** No information is lost: a generated token determines the random bytes it was made from. */
  lemma {:induction false} TokenHexRoundTrip(bytes: seq<Byte>)
    ensures HexDecode(TokenHex(bytes)) == Some(bytes)
  {
    if bytes != [] {
      var t := TokenHex(bytes);
      TokenHexRoundTrip(bytes[1..]);
      assert t[2..] == TokenHex(bytes[1..]);
      assert HexValue(t[0]) == Some(bytes[0] / 16);
      assert HexValue(t[1]) == Some(bytes[0] % 16);
      assert [bytes[0]] + bytes[1..] == bytes;
    }
  }

  /** `generate_token`: the token made from `token_hex(32)`'s random bytes has the token shape. */
  function GenerateToken(entropy: seq<Byte>): (t: string)
    requires |entropy| == TokenBytes
    ensures IsToken(t)
    ensures HexDecode(t) == Some(entropy)
  {
    TokenHexRoundTrip(entropy);
    TokenHex(entropy)
  }

  /** Different random bytes give different tokens. */
  lemma GenerateTokenInjective(a: seq<Byte>, b: seq<Byte>)
    requires |a| == TokenBytes && |b| == TokenBytes && a != b
    ensures GenerateToken(a) != GenerateToken(b)
  {
  }

  // ---------------------------------------------------------------------------
  // Hosts and registrable domains.

  /** `host.split(':')[0]`: the host without its port. */
  function StripPort(host: string): (h: string)
    ensures ':' !in h
    ensures StartsWith(host, h) && (|h| == |host| || host[|h|] == ':')
  {
    var parts := Split(host, ':');
    assert |parts| > 1 ==> host == parts[0] + [':'] + Join(parts[1..], ':') by {
      if |parts| > 1 {
        JoinAt(parts, 1, ':');
        assert parts[..1] == [parts[0]];
      }
    }
    parts[0]
  }

  /** `'.'.join(host.split(':')[0].split('.')[-2:])`: the last two dot labels of the host without port. */
  function RegistrableDomain(host: string): string
  {
    var labels := Split(StripPort(host), '.');
    Join(if |labels| <= 2 then labels else labels[|labels| - 2..], '.')
  }

  /** Two dot-free labels joined by a dot hold exactly one dot. */
  lemma OneDot(a: string, b: string)
    requires '.' !in a && '.' !in b
    ensures multiset(a + ['.'] + b)['.'] == 1
  {
    assert multiset(a + ['.'] + b) == multiset(a) + multiset(['.']) + multiset(b);
  }

  /** In `front.d`, the last |d| characters are `d` and the one before them is the dot. */
  lemma AfterLastDot(front: string, d: string)
    ensures var h := front + ['.'] + d;
            h[|h| - |d|..] == d && h[|h| - |d| - 1] == '.'
  {
  }

  /**
   * The registrable domain is the longest suffix of the port-less host with at
   * most one dot: either the whole host, or the part after the second-to-last dot.
   */
  lemma RegistrableDomainIsLastTwoLabels(host: string)
    ensures var h := StripPort(host);
            var d := RegistrableDomain(host);
            && ':' !in d
            && multiset(d)['.'] <= 1
            && (d == h || (|d| < |h| && h[|h| - |d|..] == d && h[|h| - |d| - 1] == '.' && multiset(d)['.'] == 1))
  {
    var h := StripPort(host);
    var labels := Split(h, '.');
    var n := |labels|;
    var d := RegistrableDomain(host);
    if n == 1 {
      assert d == labels[0] == h;
      assert '.' !in d;
    } else if n == 2 {
      assert Join(labels[1..], '.') == labels[1];
      assert d == labels[0] + ['.'] + labels[1] == h;
      OneDot(labels[0], labels[1]);
    } else {
      var tail := labels[n - 2..];
      assert Join(tail[1..], '.') == labels[n - 1];
      assert d == labels[n - 2] + ['.'] + labels[n - 1];
      OneDot(labels[n - 2], labels[n - 1]);
      JoinAt(labels, n - 2, '.');
      var front := Join(labels[..n - 2], '.');
      assert h == front + ['.'] + d;
      AfterLastDot(front, d);
    }
  }

  /**
   * A subdomain with a port, such as `a.primary.test:443`, is bound to its
   * last two labels, `primary.test`.
   */
  lemma RegistrableDomainOfSubdomain(sub: string, name: string, tld: string, port: string)
    requires '.' !in sub && '.' !in name && '.' !in tld
    requires ':' !in sub && ':' !in name && ':' !in tld
    ensures RegistrableDomain(sub + "." + name + "." + tld + ":" + port) == name + "." + tld
  {
    var labels := [sub, name, tld];
    var h := sub + "." + name + "." + tld;
    assert Join(labels[1..][1..], '.') == tld;
    assert Join(labels[1..], '.') == name + "." + tld;
    assert Join(labels, '.') == h;
    assert ':' !in h;
    SplitAfterField(h, port, ':');
    assert sub + "." + name + "." + tld + ":" + port == h + [':'] + port;
    SplitJoin(labels, '.');
  }

  /** A host that is already a registrable domain (no port, at most one dot) is its own domain. */
  lemma RegistrableDomainOfDomain(host: string)
    requires ':' !in host && multiset(host)['.'] <= 1
    ensures RegistrableDomain(host) == host
  {
    SplitNoSeparator(host, ':');
    assert StripPort(host) == host;
    RegistrableDomainIsLastTwoLabels(host);
    DotBeforeSuffix(host, RegistrableDomain(host));
  }

  /** A suffix preceded by a dot has fewer dots than the whole string. */
  lemma DotBeforeSuffix(h: string, d: string)
    ensures |d| < |h| && h[|h| - |d|..] == d && h[|h| - |d| - 1] == '.' ==> multiset(d)['.'] < multiset(h)['.']
  {
    if |d| < |h| && h[|h| - |d|..] == d && h[|h| - |d| - 1] == '.' {
      var front := h[..|h| - |d| - 1];
      assert h == front + ['.'] + d;
      assert multiset(h) == multiset(front) + multiset(['.']) + multiset(d);
    }
  }

  /** Binding is idempotent: the registrable domain of a registrable domain is itself. */
  lemma RegistrableDomainIdempotent(host: string)
    ensures RegistrableDomain(RegistrableDomain(host)) == RegistrableDomain(host)
  {
    RegistrableDomainIsLastTwoLabels(host);
    RegistrableDomainOfDomain(RegistrableDomain(host));
  }

  /** `label.tld` is its own registrable domain. */
  lemma RegistrableDomainOfTwoLabels(name: string, tld: string)
    requires '.' !in name && ':' !in name && '.' !in tld && ':' !in tld
    ensures RegistrableDomain(name + "." + tld) == name + "." + tld
  {
    var h := name + "." + tld;
    assert ':' !in h;
    SplitNoSeparator(h, ':');
    assert Join([name, tld], '.') == h;
    SplitJoin([name, tld], '.');
  }

  // ---------------------------------------------------------------------------
  // Token source precedence.

  /** The token (if any) a request resolves with, and the session type it is looked up as. */
  datatype Credential = Credential(token: Option<string>, kind: Option<SessionType>)

  /** `authorization.split(' ')[1]` for a header starting with `Bearer `. */
  function BearerToken(authorization: string): (t: string)
    requires StartsWith(authorization, "Bearer ")
    ensures ' ' !in t
    ensures StartsWith(authorization, "Bearer " + t)
    ensures var n := |"Bearer " + t|; n == |authorization| || authorization[n] == ' '
  {
    BearerFieldIsSecondWord(authorization);
    Split(authorization, ' ')[1]
  }

  /** A header built as `Bearer <token>` from a token without spaces yields that token back. */
  lemma BearerTokenOfHeader(token: string)
    requires ' ' !in token
    ensures StartsWith("Bearer " + token, "Bearer ")
    ensures BearerToken("Bearer " + token) == token
  {
    var a := "Bearer " + token;
    assert a[..7] == "Bearer ";
    var t := BearerToken(a);
    var n := |"Bearer " + t|;
    assert a[..n] == "Bearer " + t;
  }

  /** The second space-separated field of `Bearer ...` is the text up to the next space. */
  lemma BearerFieldIsSecondWord(authorization: string)
    requires StartsWith(authorization, "Bearer ")
    ensures |Split(authorization, ' ')| >= 2
    ensures var t := Split(authorization, ' ')[1];
            && StartsWith(authorization, "Bearer " + t)
            && (|"Bearer " + t| == |authorization| || authorization[|"Bearer " + t|] == ' ')
  {
    var rest := authorization[7..];
    assert authorization == "Bearer" + [' '] + rest;
    SplitAfterField("Bearer", rest, ' ');
    var fields := Split(rest, ' ');
    assert Split(authorization, ' ')[1] == fields[0];
    if |fields| > 1 {
      JoinAt(fields, 1, ' ');
      assert fields[..1] == [fields[0]];
      assert rest == fields[0] + [' '] + Join(fields[1..], ' ');
    }
    assert authorization[..7 + |fields[0]|] == "Bearer " + fields[0];
  }

  /**
   * The last two levels of the precedence: an `Authorization` header starting
   * with `Bearer ` gives its token as an api credential, and without one there
   * is no token.
   */
  predicate HeaderCredential(req: Request, c: Credential)
  {
    if req.authorization.Some? && StartsWith(req.authorization.value, "Bearer ") then
      c == Credential(Some(BearerToken(req.authorization.value)), Some(Api))
    else
      c.token.None?
  }

  /**
   * Token source precedence of `from_request`: an explicit token, else the
   * session cookie (looked up as a cookie session), else an `Authorization:
   * Bearer` header (looked up as an api session), else none.
   */
  function TokenSource(req: Request, token: Option<string>, kind: Option<SessionType>): (c: Credential)
    ensures Present(token) ==> c == Credential(token, kind)
    ensures !Present(token) && req.cookie.Some? ==> c == Credential(req.cookie, Some(Cookie))
    ensures c.kind == Some(Api) && c.token.Some? && !Present(token) ==>
              && req.cookie.None? && req.authorization.Some?
              && StartsWith(req.authorization.value, "Bearer " + c.token.value)
              && ' ' !in c.token.value
    ensures c.token.None? ==> !Present(token) && req.cookie.None?
    ensures !Present(token) && req.cookie.None? ==> HeaderCredential(req, c)
  {
    if Present(token) then Credential(token, kind)
    else if req.cookie.Some? then Credential(req.cookie, Some(Cookie))
    else if req.authorization.Some? && StartsWith(req.authorization.value, "Bearer ") then
      Credential(Some(BearerToken(req.authorization.value)), Some(Api))
    else Credential(None, kind)
  }

  /**
   * Precedence, stated as independence: a present explicit token makes the
   * cookie and the Authorization header irrelevant, and a session cookie makes
   * the Authorization header irrelevant.
   */
  lemma TokenSourcePrecedence(req: Request, other: Request, token: Option<string>, kind: Option<SessionType>)
    ensures Present(token) ==> TokenSource(req, token, kind) == TokenSource(other, token, kind)
    ensures req.cookie.Some? && other.cookie == req.cookie ==>
              TokenSource(req, token, kind) == TokenSource(other, token, kind)
  {
  }

  // ---------------------------------------------------------------------------
  // The store: what the persistence layer provides for Session and SessionInstance.

  /** A fresh cookie session as `from_request` creates it, with `data == {_token: token}`. */
  function NewSession(token: string, req: Request): (s: Session)
    ensures s.kind == Cookie && s.token == token && s.user.None? && !s.persisted
    ensures s.data == map[TokenKey := JStr(token)]
  {
    Session(Cookie, token, req.remoteAddr.GetOr(""), req.userAgent, None, map[TokenKey := JStr(token)], false)
  }

  class Store {
    var sessions: map<string, Session>
    var instances: set<Instance>

    /**
     * Tokens are unique keys, every instance belongs to a stored session, and
     * there is at most one instance per (session, domain) pair.
     */
    ghost predicate Valid()
      reads this
    {
      && (forall t :: t in sessions ==> sessions[t].token == t)
      && (forall i :: i in instances ==> i.token in sessions)
      && (forall i, j :: i in instances && j in instances && i.token == j.token && i.domain == j.domain ==> i == j)
    }

    constructor ()
      ensures Valid() && sessions == map[] && instances == {}
    {
      sessions := map[];
      instances := {};
    }

    ghost predicate HasInstance(token: string, domain: string)
      reads this
    {
      exists i :: i in instances && i.token == token && i.domain == domain
    }

    /** `find_by_token`: with a type filter, a session of the other type is not found. */
    function FindByToken(token: string, kind: Option<SessionType>): (r: Option<Session>)
      reads this
      ensures r.Some? ==> token in sessions && r.value == sessions[token]
      ensures r.Some? && kind.Some? ==> r.value.kind == kind.value
      ensures r.None? ==> token !in sessions || (kind.Some? && sessions[token].kind != kind.value)
    {
      if token in sessions && (kind.None? || sessions[token].kind == kind.value) then Some(sessions[token])
      else None
    }

    /** `is_new`: the record has no storage id yet. */
    predicate IsNew(token: string)
      reads this
      requires token in sessions
    {
      !sessions[token].persisted
    }

    /** `find_by_session_and_domain`: the instance of this session for this domain, if there is one. */
    method FindBySessionAndDomain(token: string, domain: string) returns (r: Option<Instance>)
      ensures r.Some? <==> HasInstance(token, domain)
      ensures r.Some? ==> r.value in instances && r.value.token == token && r.value.domain == domain
    {
      if i :| i in instances && i.token == token && i.domain == domain {
        r := Some(i);
      } else {
        r := None;
      }
    }

    /** `Session.save`: adds the record to the store (replacing the one with its token). */
    method Save(s: Session)
      modifies this
      ensures sessions == old(sessions)[s.token := s] && instances == old(instances)
    {
      sessions := sessions[s.token := s];
    }

    /** `SessionInstance.save`: adds the instance to the store. */
    method SaveInstance(i: Instance)
      modifies this
      ensures instances == old(instances) + {i} && sessions == old(sessions)
    {
      instances := instances + {i};
    }

    /** `Session.delete`: removes the session; the deletion cascades to its instances. */
    method Delete(token: string)
      requires Valid()
      modifies this
      ensures Valid()
      ensures sessions == old(sessions) - {token}
      ensures instances == set i | i in old(instances) && i.token != token
    {
      sessions := sessions - {token};
      instances := set i | i in instances && i.token != token;
    }

    /** `commit`: every pending record gets its id, so no record is new afterwards. */
    method Commit()
      requires Valid()
      modifies this
      ensures Valid() && instances == old(instances)
      ensures sessions.Keys == old(sessions).Keys
      ensures forall t :: t in sessions ==> sessions[t] == old(sessions)[t].(persisted := true)
    {
      sessions := map t | t in sessions :: sessions[t].(persisted := true);
    }
  }

  // ---------------------------------------------------------------------------
  // The resolver.

  /** The host the instance domain is taken from: the `host` argument when given, else the request's. */
  function ResolveHost(req: Request, host: Option<string>): string
  {
    if Present(host) then host.value else req.host
  }

  /** The only error of `from_request`: an explicit token without a session type. */
  const NeedTypeError: string := "need to provide type_ if token provided"

  /**
   * `SessionInstanceMixin.from_request`: picks the token by precedence, looks
   * it up with its type, creates and saves a fresh cookie session when there is
   * none, then finds or creates the instance for the request's registrable
   * domain. `entropy` stands for the random bytes `token_hex(32)` draws and
   * `now` for `datetime.utcnow()`.
   */
  method FromRequest(store: Store, req: Request, token: Option<string>, host: Option<string>,
                     kind: Option<SessionType>, entropy: seq<Byte>, now: int)
    returns (r: Result<Instance, string>)
    requires store.Valid()
    requires |entropy| == TokenBytes && GenerateToken(entropy) !in store.sessions
    modifies store
    ensures store.Valid()
    ensures Present(token) && kind.None? ==> r == Failure(NeedTypeError) && unchanged(store)
    ensures !(Present(token) && kind.None?) ==> r.Success?
    ensures r.Success? ==>
              var cred := TokenSource(req, token, kind);
              var domain := RegistrableDomain(ResolveHost(req, host));
              var found := if Present(cred.token) then old(store.FindByToken(cred.token.value, cred.kind)) else None;
              && r.value in store.instances
              && r.value.domain == domain
              && (found.None? ==>
                    var t := GenerateToken(entropy);
                    && r.value == Instance(t, domain, now)
                    && store.sessions == old(store.sessions)[t := NewSession(t, req)]
                    && store.instances == old(store.instances) + {r.value})
              && (found.Some? ==> r.value.token == found.value.token && store.sessions == old(store.sessions))
              && (found.Some? && old(store.HasInstance(found.value.token, domain)) ==>
                    r.value in old(store.instances) && store.instances == old(store.instances))
              && (found.Some? && !old(store.HasInstance(found.value.token, domain)) ==>
                    r.value == Instance(found.value.token, domain, now)
                    && store.instances == old(store.instances) + {r.value})
  {
    if Present(token) && kind.None? {
      return Failure(NeedTypeError);
    }
    var cred := TokenSource(req, token, kind);
    var domain := RegistrableDomain(ResolveHost(req, host));
    var session := if Present(cred.token) then store.FindByToken(cred.token.value, cred.kind) else None;
    var instance: Option<Instance>;
    if session.None? {
      var s := NewSession(GenerateToken(entropy), req);
      store.Save(s);
      session := Some(s);
      instance := None;
    } else {
      instance := store.FindBySessionAndDomain(session.value.token, domain);
    }
    if instance.None? {
      var i := Instance(session.value.token, domain, now);
      store.SaveInstance(i);
      instance := Some(i);
    }
    return Success(instance.value);
  }
}
