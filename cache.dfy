/** The time-based caches in front of `compute_payload` (`portfolio_series`, lines 416-432
    of backend/app.py) and `load_outlook` (`outlook`, lines 397-413). Each is the record
    `{ts, payload, last_error}`; the clock reading and the outcome of the recomputation are
    inputs of a request. */
module TtlCache {
  import opened Wrappers

  /** `CACHE_SECONDS`, the lifetime of the portfolio payload. */
  const CacheSeconds: real := 15.0

  /** `OUTLOOK_CACHE_SECONDS`, the lifetime of the outlook payload. */
  const OutlookCacheSeconds: real := 300.0

  /** What the recomputation does if it is called: returns a value or raises. The value
      may be `None`: `load_outlook` returns whatever `outlook.json` holds, and a file
      holding `null` loads as `None` (`compute_payload` always returns a dict). */
  datatype Outcome<P> = Computed(result: Option<P>) | Failed(message: string)

  /** What the endpoint does: answers with a value (`None` is the JSON `null`) or lets the
      exception propagate. */
  datatype Reply<P> = Served(body: Option<P>) | Raised(message: string)

  /** The recomputation did not load a `None`. */
  predicate NotNull<P>(o: Outcome<P>) {
    o.Computed? ==> o.result.Some?
  }

  /** The cache record. */
  datatype State<P> = State(ts: real, payload: Option<P>, lastError: Option<string>)

  /** The record at start-up. */
  function Initial<P>(): State<P> {
    State(0.0, None, None)
  }

  /** A payload is cached and younger than `ttl`. */
  predicate Fresh<P>(s: State<P>, now: real, ttl: real) {
    s.payload.Some? && now - s.ts < ttl
  }

  /** One request at time `now`: serve a fresh payload; otherwise recompute, store and serve
      on success, and on failure record the error and fall back to the stale payload. */
  function Step<P>(s: State<P>, now: real, ttl: real, outcome: Outcome<P>): (State<P>, Reply<P>) {
    if Fresh(s, now, ttl) then (s, Served(s.payload))
    else
      match outcome
      case Computed(r) => (State(now, r, None), Served(r))
      case Failed(m) =>
        (State(s.ts, s.payload, Some(m)), if s.payload.Some? then Served(s.payload) else Raised(m))
  }

  /** A fresh payload is served as it is, the record is untouched and the recomputation,
      whatever it would have done, is not consulted. */
  lemma FreshHit<P>(s: State<P>, now: real, ttl: real, o1: Outcome<P>, o2: Outcome<P>)
    requires Fresh(s, now, ttl)
    ensures Step(s, now, ttl, o1) == Step(s, now, ttl, o2) == (s, Served(s.payload))
  {
  }

  /** A successful recomputation is stored with the request time, clears the last error and
      is served, also when it returned `None`, which replaces the cached payload. */
  lemma SuccessStores<P>(s: State<P>, now: real, ttl: real, r: Option<P>)
    requires !Fresh(s, now, ttl)
    ensures Step(s, now, ttl, Computed(r)) == (State(now, r, None), Served(r))
  {
  }

  /** A failed recomputation records its message, keeps the payload and its time, and serves
      the stale payload if there is one; only with nothing cached does the error reach the
      caller. */
  lemma FailureFallsBack<P>(s: State<P>, now: real, ttl: real, m: string)
    requires !Fresh(s, now, ttl)
    ensures var (s', r) := Step(s, now, ttl, Failed(m));
      && s' == State(s.ts, s.payload, Some(m))
      && (s.payload.Some? ==> r == Served(s.payload))
      && (s.payload.None? ==> r == Raised(m))
  {
  }

  /** While a payload is cached, a request that does not load a `None` keeps a payload
      cached and answers with a payload. */
  lemma PayloadKept<P>(s: State<P>, now: real, ttl: real, o: Outcome<P>)
    requires s.payload.Some? && NotNull(o)
    ensures Step(s, now, ttl, o).0.payload.Some?
    ensures Step(s, now, ttl, o).1.Served? && Step(s, now, ttl, o).1.body.Some?
  {
  }

  /** A stale cache whose recomputation loads `None` is left empty: the `null` is answered,
      and the next failed load, however soon, reaches the caller. */
  lemma NullLoadEmpties<P>(s: State<P>, t: real, now: real, ttl: real, m: string)
    requires !Fresh(s, t, ttl)
    ensures var (s', r) := Step(s, t, ttl, Computed(None));
      && s'.payload.None? && r == Served(None)
      && Step(s', now, ttl, Failed(m)).1 == Raised(m)
  {
  }

  /** After a success at `t`, a request at `now` less than `ttl` later is a hit on that
      payload. */
  lemma SuccessThenHit<P>(s: State<P>, t: real, now: real, ttl: real, p: P, o: Outcome<P>)
    requires !Fresh(s, t, ttl) && now - t < ttl
    ensures var s' := Step(s, t, ttl, Computed(Some(p))).0;
      Step(s', now, ttl, o) == (s', Served(Some(p)))
  {
  }

  /** A request at time `now` with the recomputation's outcome. */
  datatype Request<P> = Request(now: real, outcome: Outcome<P>)

  /** The record after a sequence of requests. */
  function Run<P>(s: State<P>, ttl: real, rs: seq<Request<P>>): State<P>
    decreases |rs|
  {
    if rs == [] then s else Run(Step(s, rs[0].now, ttl, rs[0].outcome).0, ttl, rs[1..])
  }

  /** Those requests' replies, in order. */
  function Replies<P>(s: State<P>, ttl: real, rs: seq<Request<P>>): (out: seq<Reply<P>>)
    ensures |out| == |rs|
    decreases |rs|
  {
    if rs == [] then []
    else
      var (s', r) := Step(s, rs[0].now, ttl, rs[0].outcome);
      [r] + Replies(s', ttl, rs[1..])
  }

  /** Once a payload has been cached, and as long as no recomputation returns `None` (as
      `compute_payload` never does), it stays cached and every later request is answered
      with a payload. */
  lemma {:induction false} NeverRaisesOnceCached<P>(s: State<P>, ttl: real, rs: seq<Request<P>>)
    requires s.payload.Some?
    requires forall k :: 0 <= k < |rs| ==> NotNull(rs[k].outcome)
    ensures Run(s, ttl, rs).payload.Some?
    ensures forall k :: 0 <= k < |rs| ==> Replies(s, ttl, rs)[k].Served? && Replies(s, ttl, rs)[k].body.Some?
    decreases |rs|
  {
    if rs != [] {
      var (s', r) := Step(s, rs[0].now, ttl, rs[0].outcome);
      PayloadKept(s, rs[0].now, ttl, rs[0].outcome);
      assert NotNull(rs[0].outcome);
      NeverRaisesOnceCached(s', ttl, rs[1..]);
    }
  }

  /** The cache record as an object whose fields each request updates in place. */
  class Cache<P> {
    var ts: real
    var payload: Option<P>
    var lastError: Option<string>
    const ttl: real

    /** The fields as a record. */
    function Snapshot(): State<P>
      reads this
    {
      State(ts, payload, lastError)
    }

    /** `{"ts": 0.0, "payload": None, "last_error": None}`. */
    constructor(ttl: real)
      ensures Snapshot() == Initial() && this.ttl == ttl
    {
      this.ttl := ttl;
      ts := 0.0;
      payload := None;
      lastError := None;
    }

    /** The endpoint body: the fields and the reply are those of `Step`. */
    method Serve(now: real, outcome: Outcome<P>) returns (reply: Reply<P>)
      modifies this
      ensures (Snapshot(), reply) == Step(old(Snapshot()), now, ttl, outcome)
    {
      if payload.Some? && now - ts < ttl {
        return Served(payload);
      }
      match outcome
      case Computed(r) =>
        payload := r;
        ts := now;
        lastError := None;
        reply := Served(r);
      case Failed(m) =>
        lastError := Some(m);
        if payload.Some? {
          reply := Served(payload);
        } else {
          reply := Raised(m);
        }
    }
  }

  /** The two caches as the server creates them. */
  method NewCaches<P, Q>() returns (series: Cache<P>, outlook: Cache<Q>)
    ensures fresh(series) && fresh(outlook)
    ensures series.Snapshot() == Initial() && series.ttl == CacheSeconds
    ensures outlook.Snapshot() == Initial() && outlook.ttl == OutlookCacheSeconds
  {
    series := new Cache(CacheSeconds);
    outlook := new Cache(OutlookCacheSeconds);
  }
}
