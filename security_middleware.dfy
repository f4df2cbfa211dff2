/**
 * Request admission for the payment microservice: the origin/referer filter and
 * the fixed security headers of `SecurityMiddleware`, the client identifier
 * shared by both middlewares, and the per-client sliding-window limiter of
 * `RateLimitMiddleware`.
 *
 * Django's request is reduced to its method and its `META` dictionary, the
 * `DEBUG` setting is a parameter, and the wall clock is the integer `now`.
 */
module SecurityMiddleware {
  import opened Optional
  import opened PythonValues

  datatype Request = Request(verb: string, meta: map<string, string>)

  /** What a middleware does with a request: hand it on, or answer 403 with a message. */
  datatype Decision = Pass | Forbidden(message: string)

  const AllowedOrigins: seq<string> := ["https://ispcfood.netlify.app", "https://ispcfood.netlify.app/"]
  const MutatingMethods: seq<string> := ["POST", "PUT", "PATCH", "DELETE"]

  const OriginMessage := "Origen no autorizado"
  const RefererMessage := "Referer no autorizado"
  const RateLimitMessage := "Rate limit excedido"

  const OriginKey := "HTTP_ORIGIN"
  const RefererKey := "HTTP_REFERER"
  const ForwardedForKey := "HTTP_X_FORWARDED_FOR"
  const RemoteAddrKey := "REMOTE_ADDR"

  // ---------------------------------------------------------------------------
  // Client identifier
  // ---------------------------------------------------------------------------

  /** `s.split(',')[0]`: everything before the first comma, with nothing trimmed. */
  function FirstField(s: string): (f: string)
    ensures f <= s
    ensures ',' !in f
    ensures |f| < |s| ==> s[|f|] == ','
  {
    if s == [] || s[0] == ',' then [] else [s[0]] + FirstField(s[1..])
  }

  /**
   * `get_client_ip`, written identically in both middleware classes: the first
   * field of a non-empty `X-Forwarded-For`, else `REMOTE_ADDR`, which may itself
   * be missing (Python's `None`).
   */
  function ClientIp(meta: map<string, string>): (ip: Option<string>)
    ensures Truthy(Get(meta, ForwardedForKey)) ==>
              ip.Some? && ip.value <= meta[ForwardedForKey] && ',' !in ip.value
    ensures !Truthy(Get(meta, ForwardedForKey)) ==> ip == Get(meta, RemoteAddrKey)
  {
    var forwarded := Get(meta, ForwardedForKey);
    if Truthy(forwarded) then Some(FirstField(forwarded.value)) else Get(meta, RemoteAddrKey)
  }

  /** The first field of a comma-free `first` followed by nothing or by a comma is `first`. */
  lemma {:induction false} FirstFieldOf(first: string, rest: string)
    requires ',' !in first
    requires rest == [] || rest[0] == ','
    ensures FirstField(first + rest) == first
  {
    if first != [] {
      assert (first + rest)[0] == first[0];
      assert (first + rest)[1..] == first[1..] + rest;
      FirstFieldOf(first[1..], rest);
    }
  }

  /** A non-empty `X-Forwarded-For` names as client its first comma-separated field, untrimmed. */
  lemma ForwardedClientIp(meta: map<string, string>, first: string, rest: string)
    requires ForwardedForKey in meta && meta[ForwardedForKey] == first + rest
    requires first + rest != ""
    requires ',' !in first
    requires rest == [] || rest[0] == ','
    ensures ClientIp(meta) == Some(first)
  {
    FirstFieldOf(first, rest);
  }

  /** Without a non-empty `X-Forwarded-For` the client is `REMOTE_ADDR`, or None when that is missing. */
  lemma RemoteAddrFallback(meta: map<string, string>)
    requires !Truthy(Get(meta, ForwardedForKey))
    ensures ClientIp(meta) == Get(meta, RemoteAddrKey)
    ensures RemoteAddrKey !in meta ==> ClientIp(meta) == None
  {
  }

  /** The first field keeps its surrounding blanks: nothing is trimmed. */
  lemma ClientIpNotTrimmed()
    ensures ClientIp(map[ForwardedForKey := " 10.0.0.1 , 10.0.0.2"]) == Some(" 10.0.0.1 ")
  {
    ForwardedClientIp(map[ForwardedForKey := " 10.0.0.1 , 10.0.0.2"], " 10.0.0.1 ", ", 10.0.0.2");
  }

  // ---------------------------------------------------------------------------
  // Origin / referer filter
  // ---------------------------------------------------------------------------

  /** `any(s.startswith(p) for p in prefixes)`. */
  function StartsWithAny(s: string, prefixes: seq<string>): (b: bool)
    ensures b <==> exists i :: 0 <= i < |prefixes| && prefixes[i] <= s
  {
    if prefixes == [] then false
    else prefixes[0] <= s || StartsWithAny(s, prefixes[1..])
  }

  /** The decision `SecurityMiddleware.__call__` takes before calling the inner handler. */
  function OriginCheck(r: Request, debug: bool): (d: Decision)
    ensures d == Pass || d == Forbidden(OriginMessage) || d == Forbidden(RefererMessage)
  {
    if r.verb in MutatingMethods && !debug then
      var origin := Get(r.meta, OriginKey);
      var referer := Get(r.meta, RefererKey);
      if Truthy(origin) && origin.value !in AllowedOrigins then Forbidden(OriginMessage)
      else if Truthy(referer) && !StartsWithAny(referer.value, AllowedOrigins) then Forbidden(RefererMessage)
      else Pass
    else Pass
  }

  /**
   * Reference statement of the policy: a request is acceptable when it is not
   * mutating, or the service runs in debug mode, or every non-empty header it
   * carries is allowed (Origin exactly, Referer by prefix).
   */
  ghost predicate Acceptable(r: Request, debug: bool) {
    var origin := Get(r.meta, OriginKey);
    var referer := Get(r.meta, RefererKey);
    || r.verb !in MutatingMethods
    || debug
    || (&& (!Truthy(origin) || exists i :: 0 <= i < |AllowedOrigins| && AllowedOrigins[i] == origin.value)
        && (!Truthy(referer) || exists i :: 0 <= i < |AllowedOrigins| && AllowedOrigins[i] <= referer.value))
  }

  lemma PassIffAcceptable(r: Request, debug: bool)
    ensures OriginCheck(r, debug) == Pass <==> Acceptable(r, debug)
  {
  }

  /** Safe methods, and every method in debug mode, are never rejected. */
  lemma SafeOrDebugPasses(r: Request, debug: bool)
    requires r.verb !in MutatingMethods || debug
    ensures OriginCheck(r, debug) == Pass
  {
  }

  /** A foreign non-empty Origin is rejected whatever the Referer says: the Origin check comes first. */
  lemma ForeignOriginRejected(r: Request)
    requires r.verb in MutatingMethods
    requires OriginKey in r.meta && r.meta[OriginKey] != ""
    requires r.meta[OriginKey] !in AllowedOrigins
    ensures OriginCheck(r, false) == Forbidden(OriginMessage)
  {
  }

  /** Once the Origin is absent, empty or allowed, the Referer alone decides. */
  lemma RefererDecides(r: Request)
    requires r.verb in MutatingMethods
    requires !Truthy(Get(r.meta, OriginKey)) || r.meta[OriginKey] in AllowedOrigins
    ensures OriginCheck(r, false) == Forbidden(RefererMessage) <==>
              Truthy(Get(r.meta, RefererKey)) &&
              forall i :: 0 <= i < |AllowedOrigins| ==> !(AllowedOrigins[i] <= r.meta[RefererKey])
    ensures OriginCheck(r, false) != Forbidden(OriginMessage)
  {
  }

  /** A request with neither header (or both empty) is admitted. */
  lemma NoHeadersPass(r: Request, debug: bool)
    requires !Truthy(Get(r.meta, OriginKey)) && !Truthy(Get(r.meta, RefererKey))
    ensures OriginCheck(r, debug) == Pass
  {
  }

  /**
   * The Referer test is a plain prefix test, so a host that merely begins with an
   * allowed origin's text passes it.
   */
  lemma LookalikeRefererPasses()
    ensures OriginCheck(Request("POST", map[RefererKey := "https://ispcfood.netlify.app.example.net/pay"]), false) == Pass
  {
  }

  // ---------------------------------------------------------------------------
  // Response decoration
  // ---------------------------------------------------------------------------

  /** A Django response: status, body and header dictionary, updated in place. */
  class Response {
    var status: int
    var content: string
    var headers: map<string, string>

    constructor (status: int, content: string)
      ensures this.status == status && this.content == content && headers == map[]
    {
      this.status := status;
      this.content := content;
      headers := map[];
    }
  }

  const ContentSecurityPolicy :=
    "frame-src 'self' https://www.mercadopago.com https://www.mercadopago.com.ar "
    + "https://www.mercadolibre.com https://mpago.la https://translate.google.com https://www.gstatic.com;"

  /** The five headers every passed-through response receives. */
  const SecurityHeaders: map<string, string> := map[
    "X-Content-Type-Options" := "nosniff",
    "X-Frame-Options" := "DENY",
    "X-XSS-Protection" := "1; mode=block",
    "Referrer-Policy" := "same-origin",
    "Content-Security-Policy" := ContentSecurityPolicy
  ]

  /** The header map after decoration: the fixed values overwrite, everything else stays. */
  function Decorated(h: map<string, string>): (d: map<string, string>)
    ensures forall k :: k in SecurityHeaders ==> k in d && d[k] == SecurityHeaders[k]
    ensures forall k :: k in h && k !in SecurityHeaders ==> k in d && d[k] == h[k]
  {
    h + SecurityHeaders
  }

  /** The five assignments, one after another, give the decorated map. */
  lemma AssignmentsDecorate(h: map<string, string>)
    ensures h["X-Content-Type-Options" := "nosniff"]["X-Frame-Options" := "DENY"]
             ["X-XSS-Protection" := "1; mode=block"]["Referrer-Policy" := "same-origin"]
             ["Content-Security-Policy" := ContentSecurityPolicy] == Decorated(h)
  {
  }

  /** Decoration assigns, it does not append: doing it twice is doing it once. */
  lemma DecorationIdempotent(h: map<string, string>)
    ensures Decorated(Decorated(h)) == Decorated(h)
  {
  }

  /** A decorated map holds exactly the fixed values under the five names and leaves other names alone. */
  lemma DecorationContents(h: map<string, string>)
    ensures Decorated(h).Keys == h.Keys + SecurityHeaders.Keys
    ensures forall k :: k in SecurityHeaders ==> Decorated(h)[k] == SecurityHeaders[k]
    ensures forall k :: k in h && k !in SecurityHeaders ==> Decorated(h)[k] == h[k]
  {
  }

  /** The five header assignments of `SecurityMiddleware.__call__`. */
  method AddSecurityHeaders(resp: Response)
    modifies resp`headers
    ensures resp.headers == Decorated(old(resp.headers))
  {
    AssignmentsDecorate(resp.headers);
    resp.headers := resp.headers["X-Content-Type-Options" := "nosniff"];
    resp.headers := resp.headers["X-Frame-Options" := "DENY"];
    resp.headers := resp.headers["X-XSS-Protection" := "1; mode=block"];
    resp.headers := resp.headers["Referrer-Policy" := "same-origin"];
    resp.headers := resp.headers["Content-Security-Policy" := ContentSecurityPolicy];
  }

  /**
   * `SecurityMiddleware.__call__`. `inner` is the response the wrapped handler
   * produces for `req`; on rejection it is neither returned nor touched, and the
   * answer is a fresh, undecorated 403.
   */
  method Call(req: Request, debug: bool, inner: Response) returns (resp: Response)
    modifies inner`headers
    ensures OriginCheck(req, debug) == Pass ==>
              resp == inner && inner.headers == Decorated(old(inner.headers))
    ensures OriginCheck(req, debug).Forbidden? ==>
              && fresh(resp)
              && resp.status == 403
              && resp.content == OriginCheck(req, debug).message
              && resp.headers == map[]
              && inner.headers == old(inner.headers)
  {
    var decision := OriginCheck(req, debug);
    if decision.Forbidden? {
      resp := new Response(403, decision.message);
      return;
    }
    AddSecurityHeaders(inner);
    resp := inner;
  }

  // ---------------------------------------------------------------------------
  // Sliding-window rate limiter
  // ---------------------------------------------------------------------------

  const Window := 60
  const Limit := 100

  /** The client key of the limiter's table; a request without any address is keyed by None. */
  type ClientId = Option<string>

  /** The timestamps of `ts` that lie strictly inside the window ending at `now`, in order. */
  function Recent(ts: seq<int>, now: int): (r: seq<int>)
    ensures |r| <= |ts|
    ensures forall t :: t in r <==> t in ts && t > now - Window
    ensures forall t :: multiset(r)[t] == if t > now - Window then multiset(ts)[t] else 0
  {
    if ts == [] then []
    else
      assert ts == [ts[0]] + ts[1..];
      (if ts[0] > now - Window then [ts[0]] else []) + Recent(ts[1..], now)
  }

  /** Filtering distributes over concatenation, so `Recent` keeps the original order. */
  lemma {:induction false} RecentAppend(a: seq<int>, b: seq<int>, now: int)
    ensures Recent(a + b, now) == Recent(a, now) + Recent(b, now)
  {
    if a == [] {
      assert a + b == b;
    } else {
      assert (a + b)[1..] == a[1..] + b;
      RecentAppend(a[1..], b, now);
    }
  }

  /** A list whose every timestamp is in the window is kept whole. */
  lemma {:induction false} RecentAllInWindow(ts: seq<int>, now: int)
    requires forall i :: 0 <= i < |ts| ==> ts[i] > now - Window
    ensures Recent(ts, now) == ts
  {
    if ts != [] {
      RecentAllInWindow(ts[1..], now);
    }
  }

  /** A list whose every timestamp is at or before `now - Window` is dropped entirely. */
  lemma {:induction false} RecentAllStale(ts: seq<int>, now: int)
    requires forall i :: 0 <= i < |ts| ==> ts[i] <= now - Window
    ensures Recent(ts, now) == []
  {
    if ts != [] {
      RecentAllStale(ts[1..], now);
    }
  }

  /** `any(t > now - 60 for t in ts)`: it holds iff the window filter leaves something. */
  predicate AnyRecent(ts: seq<int>, now: int): (b: bool)
    ensures b <==> Recent(ts, now) != []
  {
    var r := Recent(ts, now);
    assert r != [] ==> r[0] in r;
    assert forall i :: 0 <= i < |ts| ==> ts[i] in ts;
    exists i :: 0 <= i < |ts| && ts[i] > now - Window
  }

  /** The global sweep: the entries that still hold at least one in-window timestamp. */
  function Sweep(table: map<ClientId, seq<int>>, now: int): (s: map<ClientId, seq<int>>)
    ensures forall k :: k in s <==> k in table && AnyRecent(table[k], now)
    ensures forall k :: k in s ==> s[k] == table[k]
  {
    map k | k in table && AnyRecent(table[k], now) :: table[k]
  }

  /** The stored timestamps of client `c`, none if it has no entry. */
  function History(table: map<ClientId, seq<int>>, c: ClientId): (ts: seq<int>) {
    if c in table then table[c] else []
  }

  /** How many of `c`'s stored requests fall into the window ending at `now`. */
  function RecentCount(table: map<ClientId, seq<int>>, c: ClientId, now: int): (n: nat) {
    |Recent(History(table, c), now)|
  }

  /** `RateLimitMiddleware`: the table `ip_requests` from client to request timestamps. */
  class RateLimitMiddleware {
    var ipRequests: map<ClientId, seq<int>>

    /** Every stored list is non-empty and holds at most `Limit` timestamps. */
    ghost predicate Valid()
      reads this
    {
      forall k :: k in ipRequests ==> 0 < |ipRequests[k]| <= Limit
    }

    constructor ()
      ensures Valid() && ipRequests == map[]
    {
      ipRequests := map[];
    }

    /**
     * `RateLimitMiddleware.__call__`. Outside debug mode it sweeps the whole
     * table, then rejects when the client already has `Limit` requests in the
     * window (storing nothing), and otherwise stores the client's in-window
     * timestamps followed by `now`.
     */
    method Call(req: Request, debug: bool, now: int) returns (d: Decision)
      requires Valid()
      modifies this
      ensures Valid()
      ensures d == Pass || d == Forbidden(RateLimitMessage)
      ensures debug ==> d == Pass && ipRequests == old(ipRequests)
      ensures !debug ==>
                (d.Forbidden? <==> RecentCount(old(ipRequests), ClientIp(req.meta), now) >= Limit)
      ensures !debug ==>
                ipRequests.Keys == Sweep(old(ipRequests), now).Keys + {ClientIp(req.meta)}
      ensures !debug ==>
                forall k :: k in ipRequests && k != ClientIp(req.meta) ==> ipRequests[k] == old(ipRequests)[k]
      ensures !debug && d.Forbidden? ==>
                ClientIp(req.meta) in old(ipRequests) &&
                ipRequests[ClientIp(req.meta)] == old(ipRequests)[ClientIp(req.meta)]
      ensures !debug && d == Pass ==>
                ipRequests[ClientIp(req.meta)] == Recent(History(old(ipRequests), ClientIp(req.meta)), now) + [now]
    {
      if !debug {
        var clientIp := ClientIp(req.meta);
        ghost var before := ipRequests;
        ipRequests := map ip | ip in ipRequests && AnyRecent(ipRequests[ip], now) :: ipRequests[ip];
        assert ipRequests == Sweep(before, now);
        if clientIp in ipRequests {
          var recentRequests := Recent(ipRequests[clientIp], now);
          if |recentRequests| >= Limit {
            return Forbidden(RateLimitMessage);
          }
          ipRequests := ipRequests[clientIp := recentRequests + [now]];
        } else {
          ipRequests := ipRequests[clientIp := [now]];
        }
      }
      d := Pass;
    }
  }

  /** `n` requests issued ten per time unit from time 0 on. */
  function Burst(n: nat): (ts: seq<int>)
    ensures |ts| == n
    ensures forall j :: 0 <= j < n ==> ts[j] == j / 10
  {
    seq(n, j => j / 10)
  }

  /** Before the `i`-th request of a burst, at time `i / 10`, the sweep keeps the table and all `i` requests count. */
  lemma BurstStep(c: ClientId, i: nat)
    requires i < Limit
    ensures var table := if i == 0 then map[] else map[c := Burst(i)];
            && Sweep(table, i / 10) == table
            && Recent(History(table, c), i / 10) == Burst(i)
  {
    RecentAllInWindow(Burst(i), i / 10);
    if i > 0 {
      assert Burst(i)[0] > i / 10 - Window;
    }
  }

  /** Client `ClientIp(req.meta)` sends `Limit` requests, ten per time unit from time 0 on; each is admitted. */
  method SendBurst(limiter: RateLimitMiddleware, req: Request) returns (last: Decision)
    requires limiter.Valid() && limiter.ipRequests == map[]
    modifies limiter
    ensures limiter.Valid() && limiter.ipRequests == map[ClientIp(req.meta) := Burst(Limit)]
    ensures last == Pass
  {
    var c := ClientIp(req.meta);
    last := Pass;
    var i := 0;
    while i < Limit
      invariant 0 <= i <= Limit
      invariant limiter.Valid()
      invariant limiter.ipRequests == if i == 0 then map[] else map[c := Burst(i)]
      invariant last == Pass
    {
      BurstStep(c, i);
      last := limiter.Call(req, false, i / 10);
      assert Burst(i) + [i / 10] == Burst(i + 1);
      assert limiter.ipRequests.Keys == {c};
      i := i + 1;
    }
  }

  /**
   * One client sends 100 requests within ten time units, all admitted; its 101st
   * at time 15 is rejected, while a second client at time 15 is admitted; once
   * the window has moved past the burst (time 69), the first client is admitted again.
   */
  method BurstScenario() returns (hundredth: Decision, overLimit: Decision, otherClient: Decision, afterWindow: Decision)
    ensures hundredth == Pass
    ensures overLimit == Forbidden(RateLimitMessage)
    ensures otherClient == Pass
    ensures afterWindow == Pass
  {
    var limiter := new RateLimitMiddleware();
    var a := Request("POST", map[RemoteAddrKey := "10.0.0.1"]);
    var b := Request("POST", map[RemoteAddrKey := "10.0.0.2"]);
    assert ClientIp(a.meta) == Some("10.0.0.1");
    assert ClientIp(b.meta) == Some("10.0.0.2");
    hundredth := SendBurst(limiter, a);
    RecentAllInWindow(Burst(Limit), 15);
    assert Burst(Limit)[0] > 15 - Window;
    overLimit := limiter.Call(a, false, 15);
    assert limiter.ipRequests.Keys == {Some("10.0.0.1")};
    otherClient := limiter.Call(b, false, 15);
    RecentAllStale(Burst(Limit), 9 + Window);
    afterWindow := limiter.Call(a, false, 9 + Window);
  }
}
