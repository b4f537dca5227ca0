/** The per-key, per-minute request limiter of the `/v1` middleware.

    Redis holds one counter per key and minute; every request increments it and pushes its
    expiry 90 seconds ahead.  `t` is the gateway's clock at the request, `r` the time at which
    Redis executes the increment. */
module RateLimiter {
  import opened Options

  const EXPIRY: nat := 90

  datatype ApiKey = ApiKey(id: string, active: bool, rateLimit: int, usageCount: nat)

  datatype Counter = Counter(count: nat, expiresAt: nat)

  type Counters = map<(string, nat), Counter>

  datatype Decision =
    | InvalidKey
    | TooManyRequests(limit: int, retryAfter: nat)
    | Admitted(limit: int, remaining: int, reset: nat)

  /** `rate_limit or 60`: an absent limit is stored as 0. */
  function EffectiveLimit(rateLimit: int): int {
    if rateLimit == 0 then 60 else rateLimit
  }

  function Bucket(t: nat): nat { t / 60 }

  /** What the increment at time `r` returns: an expired counter starts again. */
  function Incremented(counters: Counters, id: string, t: nat, r: nat): (count: nat) {
    var k := (id, Bucket(t));
    if k in counters && r < counters[k].expiresAt then counters[k].count + 1 else 1
  }

  function Hit(counters: Counters, id: string, t: nat, r: nat): Counters {
    counters[(id, Bucket(t)) := Counter(Incremented(counters, id, t, r), r + EXPIRY)]
  }

  function Decide(limit: int, count: int, remaining: int, t: nat): Decision {
    var reset := 60 - t % 60;
    if count > limit then TooManyRequests(limit, reset) else Admitted(limit, remaining, reset)
  }

  /** `keys` by the hash of the raw key. */
  datatype World = World(keys: map<string, ApiKey>, counters: Counters)

  predicate IsKey(w: World, hashedKey: string) {
    hashedKey in w.keys && w.keys[hashedKey].active
  }

  /** The limiter part of `dispatch`.  When Redis does not answer, the request counts as the first one
      of its minute. */
  function Handle(w: World, hashedKey: string, t: nat, r: nat, redisAnswers: bool): (World, Decision) {
    if !IsKey(w, hashedKey) then (w, InvalidKey)
    else
      var key := w.keys[hashedKey];
      var limit := EffectiveLimit(key.rateLimit);
      var keys := w.keys[hashedKey := key.(usageCount := key.usageCount + 1)];
      if redisAnswers then
        var count := Incremented(w.counters, key.id, t, r);
        (World(keys, Hit(w.counters, key.id, t, r)),
         Decide(limit, count, if limit > count then limit - count else 0, t))
      else (World(keys, w.counters), Decide(limit, 1, limit - 1, t))
  }

  class APIKeyMiddleware {
    var keys: map<string, ApiKey>
    var counters: Counters

    function State(): World
      reads this
    {
      World(keys, counters)
    }

    method Dispatch(hashedKey: string, t: nat, r: nat, redisAnswers: bool) returns (d: Decision)
      modifies this
      ensures (State(), d) == Handle(old(State()), hashedKey, t, r, redisAnswers)
    {
      if hashedKey !in keys || !keys[hashedKey].active { return InvalidKey; }
      var key := keys[hashedKey];
      var limit := if key.rateLimit == 0 then 60 else key.rateLimit;
      keys := keys[hashedKey := key.(usageCount := key.usageCount + 1)];
      var bucket := t / 60;
      var reset := 60 - t % 60;
      var current, remaining := 1, limit - 1;
      if redisAnswers {
        current := Incremented(counters, key.id, t, r);
        counters := counters[(key.id, bucket) := Counter(current, r + EXPIRY)];
        remaining := if limit > current then limit - current else 0;
      }
      if current > limit { return TooManyRequests(limit, reset); }
      return Admitted(limit, remaining, reset);
    }
  }

  // --------------------------------------------------------------- histories

  /** Counted requests in the order Redis executes them. */
  datatype Req = Req(id: string, t: nat, r: nat)

  function CountersAfter(h: seq<Req>): Counters
    decreases |h|
  {
    if h == [] then map[]
    else
      var q := h[|h| - 1];
      Hit(CountersAfter(h[..|h| - 1]), q.id, q.t, q.r)
  }

  /** How many requests of `h` carry the key `id` in minute `b`. */
  function Earlier(h: seq<Req>, id: string, b: nat): nat
    decreases |h|
  {
    if h == [] then 0
    else
      var q := h[|h| - 1];
      Earlier(h[..|h| - 1], id, b) + if q.id == id && Bucket(q.t) == b then 1 else 0
  }

  /** Redis executes each increment within 30 seconds of the gateway's clock reading. */
  predicate Prompt(h: seq<Req>) {
    forall i :: 0 <= i < |h| ==> h[i].t <= h[i].r <= h[i].t + 30
  }

  lemma {:induction false} CounterInvariant(h: seq<Req>, id: string, b: nat)
    requires Prompt(h)
    ensures var c := CountersAfter(h);
      && ((id, b) in c <==> Earlier(h, id, b) > 0)
      && ((id, b) in c ==> c[(id, b)].count == Earlier(h, id, b) && c[(id, b)].expiresAt >= 60 * b + EXPIRY)
    decreases |h|
  {
    if h != [] {
      var k := |h| - 1;
      var q := h[k];
      CounterInvariant(h[..k], id, b);
      if q.id == id && Bucket(q.t) == b {
        assert 60 * b <= q.t <= q.r && q.r <= 60 * b + 89;
      }
    }
  }

  function Stored(h: seq<Req>, i: nat): nat
    requires i < |h|
  {
    Incremented(CountersAfter(h[..i]), h[i].id, h[i].t, h[i].r)
  }

  /** Over every history the counter that a request sees is one plus the number of earlier
      requests of its key in its minute: the 90 second expiry never drops it early. */
  lemma CounterIsExact(h: seq<Req>, i: nat)
    requires Prompt(h) && i < |h|
    ensures Stored(h, i) == 1 + Earlier(h[..i], h[i].id, Bucket(h[i].t))
  {
    CounterInvariant(h[..i], h[i].id, Bucket(h[i].t));
    assert h[i].t <= h[i].r <= h[i].t + 30;
  }

  /** When Redis last incremented the key's counter for minute `b`. */
  function LastHit(h: seq<Req>, id: string, b: nat): Option<nat>
    decreases |h|
  {
    if h == [] then None
    else
      var q := h[|h| - 1];
      if q.id == id && Bucket(q.t) == b then Some(q.r) else LastHit(h[..|h| - 1], id, b)
  }

  /** Every increment of the key in minute `b` came before the one before it expired. */
  predicate Unbroken(h: seq<Req>, id: string, b: nat)
    decreases |h|
  {
    h == [] ||
    var q, before := h[|h| - 1], h[..|h| - 1];
    && Unbroken(before, id, b)
    && (q.id == id && Bucket(q.t) == b && LastHit(before, id, b).Some? ==> q.r < LastHit(before, id, b).value + EXPIRY)
  }

  lemma {:induction false} CounterLags(h: seq<Req>, id: string, b: nat)
    ensures var c, last := CountersAfter(h), LastHit(h, id, b);
      && ((id, b) in c <==> last.Some?) && (last.Some? <==> Earlier(h, id, b) > 0)
      && (last.Some? ==>
            && c[(id, b)].expiresAt == last.value + EXPIRY
            && 1 <= c[(id, b)].count <= Earlier(h, id, b)
            && (c[(id, b)].count == Earlier(h, id, b) <==> Unbroken(h, id, b)))
      && (last.None? ==> Unbroken(h, id, b))
    decreases |h|
  {
    if h != [] { CounterLags(h[..|h| - 1], id, b); }
  }

  /** Whatever the delays, the counter is exact exactly when no increment of that key and minute, this
      one included, came 90 seconds or more after the one before it. */
  lemma CounterIsExactIff(h: seq<Req>, i: nat)
    requires i < |h|
    ensures var id, b := h[i].id, Bucket(h[i].t);
      Stored(h, i) == 1 + Earlier(h[..i], id, b) <==> Unbroken(h[..i + 1], id, b)
  {
    CounterLags(h[..i], h[i].id, Bucket(h[i].t));
    assert h[..i + 1][..i] == h[..i];
  }

  /** Thirty seconds is the limit: one second more and a counter can expire inside its minute. */
  lemma LateIncrementRestartsCounter()
    ensures var h := [Req("k", 0, 0), Req("k", 59, 90)];
      && h[1].r == h[1].t + 31
      && Stored(h, 1) == 1 && Earlier(h[..1], "k", Bucket(59)) == 1
  {
  }

  // ------------------------------------------------------- runs of the middleware

  /** Requests, in the order in which Redis executes their increments, and changes to the keys. */
  datatype Event =
    | Request(hashedKey: string, t: nat, r: nat, redisAnswers: bool)
    | KeyChanged(hashedKey: string, key: ApiKey)

  function Next(w: World, e: Event): World {
    match e
    case Request(k, t, r, answers) => Handle(w, k, t, r, answers).0
    case KeyChanged(k, key) => w.(keys := w.keys[k := key])
  }

  function After(w: World, es: seq<Event>): World
    decreases |es|
  {
    if es == [] then w else Next(After(w, es[..|es| - 1]), es[|es| - 1])
  }

  /** What `dispatch` decides about the i-th event of a run, a request. */
  function Answer(w: World, es: seq<Event>, i: nat): Decision
    requires i < |es| && es[i].Request?
  {
    var e := es[i];
    Handle(After(w, es[..i]), e.hashedKey, e.t, e.r, e.redisAnswers).1
  }

  /** The i-th event is a request with an active key of this id. */
  predicate Carries(w: World, es: seq<Event>, i: nat, id: string)
    requires i < |es|
  {
    var v := After(w, es[..i]);
    es[i].Request? && es[i].hashedKey in v.keys && v.keys[es[i].hashedKey].active && v.keys[es[i].hashedKey].id == id
  }

  predicate IsCounted(w: World, e: Event)
    ensures IsCounted(w, e) ==> e.Request? && e.hashedKey in w.keys
  {
    e.Request? && e.redisAnswers && IsKey(w, e.hashedKey)
  }

  /** What Redis counts of a run. */
  function Counted(w: World, es: seq<Event>): seq<Req>
    decreases |es|
  {
    if es == [] then []
    else
      var before, e := es[..|es| - 1], es[|es| - 1];
      var v := After(w, before);
      Counted(w, before)
      + if IsCounted(v, e) then [Req(v.keys[e.hashedKey].id, e.t, e.r)] else []
  }

  predicate Timely(es: seq<Event>) {
    forall i :: 0 <= i < |es| && es[i].Request? ==> es[i].t <= es[i].r <= es[i].t + 30
  }

  lemma {:induction false} CountersOfRun(w: World, es: seq<Event>)
    requires w.counters == map[] && Timely(es)
    ensures After(w, es).counters == CountersAfter(Counted(w, es)) && Prompt(Counted(w, es))
    decreases |es|
  {
    if es != [] {
      var k := |es| - 1;
      TimelyPrefix(es, k);
      CountersOfRun(w, es[..k]);
      var h := Counted(w, es[..k]);
      LastStep(w, es);
      hide *;
      if IsCounted(After(w, es[..k]), es[k]) {
        OneMoreCounter(h, Req(After(w, es[..k]).keys[es[k].hashedKey].id, es[k].t, es[k].r));
      }
    } else {
      NoCounters(w);
    }
  }

  lemma LastStep(w: World, es: seq<Event>)
    requires es != [] && Timely(es)
    ensures var e, v := es[|es| - 1], After(w, es[..|es| - 1]);
      var h := Counted(w, es[..|es| - 1]);
      if IsCounted(v, e) then
        && e.t <= e.r <= e.t + 30
        && Counted(w, es) == h + [Req(v.keys[e.hashedKey].id, e.t, e.r)]
        && After(w, es).counters == Hit(v.counters, v.keys[e.hashedKey].id, e.t, e.r)
      else Counted(w, es) == h && After(w, es).counters == v.counters
  {
    hide Hit, Incremented;
  }

  lemma NoCounters(w: World)
    ensures After(w, []) == w && CountersAfter(Counted(w, [])) == map[] && Prompt(Counted(w, []))
  {
  }

  lemma OneMoreCounter(h: seq<Req>, q: Req)
    requires Prompt(h) && q.t <= q.r <= q.t + 30
    ensures CountersAfter(h + [q]) == Hit(CountersAfter(h), q.id, q.t, q.r) && Prompt(h + [q])
  {
    assert (h + [q])[..|h|] == h;
  }

  /** How many earlier requests in minute `b` with a key of this id Redis has counted. */
  function CountedBefore(w: World, es: seq<Event>, i: nat, id: string, b: nat): nat
    requires i <= |es|
  {
    Earlier(Counted(w, es[..i]), id, b)
  }

  /** The answer to each request of each run: a key that is missing or inactive is refused; otherwise
      the request is admitted exactly when fewer than its limit (60 if none is set) of the key's
      earlier requests in its minute were counted, none if Redis does not answer.  An admission says
      how many are left, and both answers when the next minute begins. */
  lemma AnswerOfRequest(w: World, es: seq<Event>, i: nat)
    requires w.counters == map[] && Timely(es) && i < |es| && es[i].Request?
    ensures var d, v, e := Answer(w, es, i), After(w, es[..i]), es[i];
      if e.hashedKey !in v.keys || !v.keys[e.hashedKey].active then d == InvalidKey
      else
        var key := v.keys[e.hashedKey];
        var limit := if key.rateLimit == 0 then 60 else key.rateLimit;
        var n := if e.redisAnswers then CountedBefore(w, es, i, key.id, e.t / 60) else 0;
        && (d.Admitted? <==> n < limit) && (d.TooManyRequests? <==> n >= limit)
        && (d.Admitted? ==> d.limit == limit && n + 1 + d.remaining == limit && e.t + d.reset == 60 * (e.t / 60 + 1))
        && (d.TooManyRequests? ==> d.limit == limit && e.t + d.retryAfter == 60 * (e.t / 60 + 1))
  {
    var e, h := es[i], Counted(w, es[..i]);
    var v := After(w, es[..i]);
    CountersOfRun(w, es[..i]);
    if IsKey(v, e.hashedKey) && e.redisAnswers {
      var q := Req(v.keys[e.hashedKey].id, e.t, e.r);
      assert (h + [q])[..|h|] == h;
      CounterIsExact(h + [q], |h|);
    }
  }

  // ------------------------------------------------------------- admissions

  /** Redis answers every request of the key, and its limit stays the same. */
  predicate Steady(w: World, es: seq<Event>, id: string, limit: int) {
    forall i :: 0 <= i < |es| && Carries(w, es, i, id) ==>
      es[i].redisAnswers && EffectiveLimit(After(w, es[..i]).keys[es[i].hashedKey].rateLimit) == limit
  }

  /** Exactly the first `limit` requests of a key in a minute are admitted. */
  lemma FirstLimitAdmitted(w: World, es: seq<Event>, i: nat, id: string, limit: int)
    requires w.counters == map[] && Timely(es) && Steady(w, es, id, limit)
    requires i < |es| && Carries(w, es, i, id)
    ensures Answer(w, es, i).Admitted? <==> CountedBefore(w, es, i, id, Bucket(es[i].t)) < limit
  {
    AnswerOfRequest(w, es, i);
  }

  /** Requests of key `id` with a gateway time in [from, until). */
  function RequestsBetween(w: World, es: seq<Event>, id: string, from: nat, until: nat): nat
    decreases |es|
  {
    if es == [] then 0
    else
      var k := |es| - 1;
      RequestsBetween(w, es[..k], id, from, until)
      + if Carries(w, es, k, id) && from <= es[k].t < until then 1 else 0
  }

  /** Those of them that are admitted. */
  function AdmittedBetween(w: World, es: seq<Event>, id: string, from: nat, until: nat): nat
    decreases |es|
  {
    if es == [] then 0
    else
      var k := |es| - 1;
      AdmittedBetween(w, es[..k], id, from, until)
      + if Carries(w, es, k, id) && from <= es[k].t < until && Answer(w, es, k).Admitted? then 1 else 0
  }

  /** The same for the minute `b`. */
  function RequestsIn(w: World, es: seq<Event>, id: string, b: nat): nat {
    RequestsBetween(w, es, id, 60 * b, 60 * b + 60)
  }

  function AdmittedIn(w: World, es: seq<Event>, id: string, b: nat): nat {
    AdmittedBetween(w, es, id, 60 * b, 60 * b + 60)
  }

  function Cap(limit: int, n: nat): nat {
    if limit < 0 then 0 else if n < limit then n else limit
  }

  lemma PrefixOf(w: World, es: seq<Event>, k: nat, i: nat, id: string)
    requires i < k <= |es|
    ensures es[..k][..i] == es[..i] && (Carries(w, es[..k], i, id) <==> Carries(w, es, i, id))
    ensures es[i].Request? ==> Answer(w, es[..k], i) == Answer(w, es, i)
  {
    assert es[..k][..i] == es[..i];
  }

  lemma SteadyPrefix(w: World, es: seq<Event>, k: nat, id: string, limit: int)
    requires Steady(w, es, id, limit) && k <= |es|
    ensures Steady(w, es[..k], id, limit)
  {
    forall i | 0 <= i < k ensures es[..k][..i] == es[..i] && (Carries(w, es[..k], i, id) <==> Carries(w, es, i, id)) {
      PrefixOf(w, es, k, i, id);
    }
  }

  /** With Redis answering, what it has counted of a key is what was requested. */
  lemma {:induction false} AllCounted(w: World, es: seq<Event>, id: string, limit: int, b: nat)
    requires Steady(w, es, id, limit)
    ensures Earlier(Counted(w, es), id, b) == RequestsIn(w, es, id, b)
    decreases |es|
  {
    if es != [] {
      var k := |es| - 1;
      SteadyPrefix(w, es, k, id, limit);
      OneMoreIn(w, es, id, b);
      OneMoreCounted(w, es, id, limit, b);
      hide *;
      AllCounted(w, es[..k], id, limit, b);
    } else {
      assert RequestsIn(w, es, id, b) == 0 && Earlier(Counted(w, es), id, b) == 0;
    }
  }

  lemma OneMoreCounted(w: World, es: seq<Event>, id: string, limit: int, b: nat)
    requires es != [] && Steady(w, es, id, limit)
    ensures var k := |es| - 1;
      Earlier(Counted(w, es), id, b) == Earlier(Counted(w, es[..k]), id, b)
        + if Carries(w, es, k, id) && Bucket(es[k].t) == b then 1 else 0
  {
    var k := |es| - 1;
    var h := Counted(w, es[..k]);
    if Counted(w, es) != h { assert Counted(w, es)[..|h|] == h; }
    hide After, Bucket;
  }

  lemma {:induction false} AdmittedPerMinute(w: World, es: seq<Event>, id: string, limit: int, b: nat)
    requires w.counters == map[] && Timely(es) && Steady(w, es, id, limit)
    ensures AdmittedIn(w, es, id, b) == Cap(limit, RequestsIn(w, es, id, b))
    decreases |es|
  {
    if es != [] {
      var k := |es| - 1;
      SteadyPrefix(w, es, k, id, limit);
      TimelyPrefix(es, k);
      OneMoreIn(w, es, id, b);
      hide *;
      AdmittedPerMinute(w, es[..k], id, limit, b);
      AllCounted(w, es[..k], id, limit, b);
      if Carries(w, es, k, id) { FirstLimitAdmitted(w, es, k, id, limit); }
      CapOneMore(limit, RequestsIn(w, es[..k], id, b));
    } else {
      assert AdmittedIn(w, es, id, b) == 0 && RequestsIn(w, es, id, b) == 0;
    }
  }

  lemma OneMoreIn(w: World, es: seq<Event>, id: string, b: nat)
    requires es != []
    ensures var k := |es| - 1;
      var hit := Carries(w, es, k, id) && Bucket(es[k].t) == b;
      && RequestsIn(w, es, id, b) == RequestsIn(w, es[..k], id, b) + (if hit then 1 else 0)
      && AdmittedIn(w, es, id, b)
           == AdmittedIn(w, es[..k], id, b) + (if hit && Answer(w, es, k).Admitted? then 1 else 0)
  {
    hide After, Answer;
  }

  lemma CapOneMore(limit: int, n: nat)
    ensures Cap(limit, n + 1) == Cap(limit, n) + if n < limit then 1 else 0
  {
  }

  /** The `remaining` of an admission is how many requests the key still gets in the minute: of those
      that follow in it, exactly so many are admitted, if they come. */
  lemma RemainingIsLeft(w: World, es: seq<Event>, i: nat, id: string, limit: int)
    requires w.counters == map[] && Timely(es) && Steady(w, es, id, limit)
    requires i < |es| && Carries(w, es, i, id) && Answer(w, es, i).Admitted?
    ensures var b, now := Bucket(es[i].t), es[..i + 1];
      var left, more := Answer(w, es, i).remaining, RequestsIn(w, es, id, b) - RequestsIn(w, now, id, b);
      left >= 0 && more >= 0 && AdmittedIn(w, es, id, b) - AdmittedIn(w, now, id, b) == Cap(left, more)
  {
    var b := Bucket(es[i].t);
    SteadyPrefix(w, es, i + 1, id, limit);
    TimelyPrefix(es, i + 1);
    RequestsGrow(w, es, i + 1, id, 60 * b, 60 * b + 60);
    assert RequestsIn(w, es[..i + 1], id, b) <= RequestsIn(w, es, id, b);
    hide *;
    AdmittedPerMinute(w, es, id, limit, b);
    AdmittedPerMinute(w, es[..i + 1], id, limit, b);
    RemainingNow(w, es, i, id, limit);
    CapRest(limit, RequestsIn(w, es[..i + 1], id, b), RequestsIn(w, es, id, b));
  }

  lemma TimelyPrefix(es: seq<Event>, k: nat)
    requires Timely(es) && k <= |es|
    ensures Timely(es[..k])
  {
  }

  lemma RemainingNow(w: World, es: seq<Event>, i: nat, id: string, limit: int)
    requires w.counters == map[] && Timely(es) && Steady(w, es, id, limit)
    requires i < |es| && Carries(w, es, i, id) && Answer(w, es, i).Admitted?
    ensures var n := RequestsIn(w, es[..i + 1], id, Bucket(es[i].t));
      0 < n <= limit && Answer(w, es, i).remaining == limit - n
  {
    var b := Bucket(es[i].t);
    SteadyPrefix(w, es, i, id, limit);
    AllCounted(w, es[..i], id, limit, b);
    AnswerOfRequest(w, es, i);
    OneMoreRequest(w, es, i, id, b);
    hide After, Answer, Counted, Earlier, RequestsBetween;
  }

  lemma CapRest(limit: int, n: nat, all: nat)
    requires 0 < n <= limit && n <= all
    ensures Cap(limit, all) - Cap(limit, n) == Cap(limit - n, all - n)
  {
  }

  lemma OneMoreRequest(w: World, es: seq<Event>, i: nat, id: string, b: nat)
    requires i < |es| && Carries(w, es, i, id) && Bucket(es[i].t) == b
    ensures RequestsIn(w, es[..i + 1], id, b) == RequestsIn(w, es[..i], id, b) + 1
  {
    assert es[..i + 1][..i] == es[..i];
    PrefixOf(w, es, i + 1, i, id);
  }

  lemma {:induction false} RequestsGrow(w: World, es: seq<Event>, k: nat, id: string, from: nat, until: nat)
    requires k <= |es|
    ensures RequestsBetween(w, es[..k], id, from, until) <= RequestsBetween(w, es, id, from, until)
    decreases |es|
  {
    if k < |es| {
      assert es[..|es| - 1][..k] == es[..k];
      RequestsGrow(w, es[..|es| - 1], k, id, from, until);
    } else {
      assert es[..k] == es;
    }
  }

  lemma {:induction false} WindowInTwoMinutes(w: World, es: seq<Event>, id: string, from: nat)
    ensures var b := Bucket(from);
      AdmittedBetween(w, es, id, from, from + 60) <=
        AdmittedIn(w, es, id, b) + AdmittedIn(w, es, id, b + 1)
    decreases |es|
  {
    if es != [] { WindowInTwoMinutes(w, es[..|es| - 1], id, from); }
  }

  /** No request is admitted under a negative limit. */
  function Most(limit: int): nat {
    if limit < 0 then 0 else limit
  }

  /** Any window of 60 seconds admits at most twice the limit. */
  lemma SlidingWindowBound(w: World, es: seq<Event>, id: string, limit: int, from: nat)
    requires w.counters == map[] && Timely(es) && Steady(w, es, id, limit)
    ensures AdmittedBetween(w, es, id, from, from + 60) <= 2 * Most(limit)
  {
    WindowInTwoMinutes(w, es, id, from);
    AdmittedPerMinute(w, es, id, limit, Bucket(from));
    AdmittedPerMinute(w, es, id, limit, Bucket(from) + 1);
  }

  /** And twice the limit is reached in every window that is not a minute: a burst at its start, and
      one as soon as the next minute begins. */
  lemma UnalignedWindowIsTight(w: World, k: string, from: nat) returns (es: seq<Event>)
    requires w.counters == map[] && IsKey(w, k) && from % 60 != 0
    ensures var id, limit := w.keys[k].id, EffectiveLimit(w.keys[k].rateLimit);
      && Timely(es) && Steady(w, es, id, limit)
      && AdmittedBetween(w, es, id, from, from + 60) == 2 * Most(limit)
  {
    var id, n := w.keys[k].id, Most(EffectiveLimit(w.keys[k].rateLimit));
    var next := 60 * Bucket(from) + 60;
    var first := Burst(k, from, n);
    es := first + Burst(k, next, n);
    assert Bucket(next) == Bucket(from) + 1;
    BurstAdmitted(w, [], k, from, from, n);
    assert [] + first == first;
    NoneInMinute(w, first, id, Bucket(next));
    BurstAdmitted(w, first, k, from, next, n);
    OnlyThisKey(w, k, es);
  }

  /** Exactly the windows of 60 seconds that are minutes keep the limit, whatever the requests. */
  lemma WindowKeepsLimitIff(w: World, k: string, from: nat)
    requires w.counters == map[] && IsKey(w, k)
    ensures var id, limit := w.keys[k].id, EffectiveLimit(w.keys[k].rateLimit);
      (forall es :: Timely(es) && Steady(w, es, id, limit) ==>
         AdmittedBetween(w, es, id, from, from + 60) <= Most(limit))
      <==> from % 60 == 0 || limit <= 0
  {
    var id, limit := w.keys[k].id, EffectiveLimit(w.keys[k].rateLimit);
    if from % 60 == 0 || limit <= 0 {
      forall es | Timely(es) && Steady(w, es, id, limit)
        ensures AdmittedBetween(w, es, id, from, from + 60) <= Most(limit)
      {
        AdmittedPerMinute(w, es, id, limit, Bucket(from));
        SlidingWindowBound(w, es, id, limit, from);
      }
    } else {
      var es := UnalignedWindowIsTight(w, k, from);
      assert Timely(es) && Steady(w, es, id, limit) && AdmittedBetween(w, es, id, from, from + 60) > Most(limit);
    }
  }

  /** Requests with one key, at which Redis acts at once. */
  predicate OfKey(es: seq<Event>, k: string) {
    forall i :: 0 <= i < |es| ==> es[i].Request? && es[i] == Request(k, es[i].t, es[i].t, true)
  }

  function Burst(k: string, t: nat, n: nat): seq<Event> {
    seq(n, i => Request(k, t, t, true))
  }

  lemma {:induction false} KeyStays(w: World, k: string, es: seq<Event>)
    requires IsKey(w, k) && OfKey(es, k)
    ensures var v := After(w, es);
      IsKey(v, k) && v.keys[k].id == w.keys[k].id && v.keys[k].rateLimit == w.keys[k].rateLimit
    decreases |es|
  {
    if es != [] { KeyStays(w, k, es[..|es| - 1]); }
  }

  lemma OnlyThisKey(w: World, k: string, es: seq<Event>)
    requires IsKey(w, k) && OfKey(es, k)
    ensures Timely(es) && Steady(w, es, w.keys[k].id, EffectiveLimit(w.keys[k].rateLimit))
    ensures forall i :: 0 <= i < |es| ==> Carries(w, es, i, w.keys[k].id)
  {
    forall i | 0 <= i < |es|
      ensures Carries(w, es, i, w.keys[k].id)
      ensures After(w, es[..i]).keys[k].rateLimit == w.keys[k].rateLimit
    {
      KeyStays(w, k, es[..i]);
    }
  }

  lemma {:induction false} NoneInMinute(w: World, es: seq<Event>, id: string, b: nat)
    requires forall i :: 0 <= i < |es| && es[i].Request? ==> Bucket(es[i].t) != b
    ensures RequestsIn(w, es, id, b) == 0
    decreases |es|
  {
    if es != [] { NoneInMinute(w, es[..|es| - 1], id, b); }
  }

  lemma {:induction false} BurstAdmitted(w: World, es: seq<Event>, k: string, from: nat, t: nat, n: nat)
    requires w.counters == map[] && IsKey(w, k) && OfKey(es, k) && from <= t < from + 60
    requires n <= Most(EffectiveLimit(w.keys[k].rateLimit))
    requires RequestsIn(w, es, w.keys[k].id, Bucket(t)) == 0
    ensures var g, id := es + Burst(k, t, n), w.keys[k].id;
      && OfKey(g, k) && RequestsIn(w, g, id, Bucket(t)) == n
      && AdmittedBetween(w, g, id, from, from + 60) == AdmittedBetween(w, es, id, from, from + 60) + n
  {
    if n == 0 {
      assert es + Burst(k, t, 0) == es;
    } else {
      hide After, Counted, Earlier, RequestsIn, AdmittedBetween, OfKey, Bucket, IsKey, EffectiveLimit;
      BurstAdmitted(w, es, k, from, t, n - 1);
      var g := es + Burst(k, t, n - 1);
      assert es + Burst(k, t, n) == g + [Request(k, t, t, true)];
      OneMoreAdmitted(w, g, k, from, t);
    }
  }

  lemma OneMoreAdmitted(w: World, es: seq<Event>, k: string, from: nat, t: nat)
    requires w.counters == map[] && IsKey(w, k) && OfKey(es, k) && from <= t < from + 60
    requires RequestsIn(w, es, w.keys[k].id, Bucket(t)) < EffectiveLimit(w.keys[k].rateLimit)
    ensures var g, id := es + [Request(k, t, t, true)], w.keys[k].id;
      && OfKey(g, k)
      && RequestsIn(w, g, id, Bucket(t)) == RequestsIn(w, es, id, Bucket(t)) + 1
      && AdmittedBetween(w, g, id, from, from + 60) == AdmittedBetween(w, es, id, from, from + 60) + 1
  {
    var g, id, limit := es + [Request(k, t, t, true)], w.keys[k].id, EffectiveLimit(w.keys[k].rateLimit);
    assert g[..|es|] == es && g[..|g|] == g;
    OnlyThisKey(w, k, es);
    OnlyThisKey(w, k, g);
    hide After, Answer, Counted, Earlier, Steady, Carries, EffectiveLimit, IsKey, RequestsIn;
    AllCounted(w, es, id, limit, Bucket(t));
    FirstLimitAdmitted(w, g, |es|, id, limit);
    OneMoreRequest(w, g, |es|, id, Bucket(t));
  }
}
