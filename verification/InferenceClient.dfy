/** The inference client's retry loop and circuit breaker. */
module InferenceClient {

  const COOLDOWN: real := 30.0
  const MAX_FAILURES: nat := 5
  const MAX_RETRIES: nat := 3

  datatype Verb = GET | POST | Unsupported

  /** What one HTTP attempt meets.  `Unexpected` is an exception outside the two httpx families
      that the client catches. */
  datatype Reply =
    | Response(status: int)
    | ConnectionTrouble      // connect error, or connect, read or write timeout
    | OtherRequestError
    | Unexpected

  datatype Attempt = Attempt(reply: Reply, took: real)

  datatype Outcome =
    | Returned(status: int)
    | Blocked
    | Failed
    | Escaped                // a ValueError or another exception the loop does not catch

  datatype Breaker = Breaker(failures: nat, degraded: bool, lastFailure: real)

  /** A finished call: the breaker after it, when each HTTP attempt was sent, when it ended. */
  datatype Call = Call(breaker: Breaker, outcome: Outcome, sent: seq<real>, end: real)

  predicate Transient(r: Reply) {
    r.ConnectionTrouble? || (r.Response? && (r.status == 502 || r.status == 503 || r.status == 504))
  }

  /** Two to the power `retries`, in seconds. */
  function Backoff(retries: nat): real {
    if retries == 0 then 1.0 else 2.0 * Backoff(retries - 1)
  }

  /** The script of a call: what each of its at most four attempts would meet. */
  predicate IsScript(script: seq<Attempt>) {
    |script| == MAX_RETRIES + 1 && forall i :: 0 <= i < |script| ==> script[i].took >= 0.0
  }

  function FailureRecorded(b: Breaker, now: real): Breaker {
    Breaker(b.failures + 1, b.degraded || b.failures + 1 >= MAX_FAILURES, now)
  }

  function Attempts(b: Breaker, retries: nat, now: real, script: seq<Attempt>): Call
    requires IsScript(script) && retries <= MAX_RETRIES
    decreases MAX_RETRIES - retries
  {
    var reply, ended := script[retries].reply, now + script[retries].took;
    if reply.Response? && !Transient(reply) then
      Call(Breaker(0, false, b.lastFailure), Returned(reply.status), [now], ended)
    else if reply.Unexpected? then
      Call(b, Escaped, [now], ended)
    else if Transient(reply) && retries < MAX_RETRIES then
      var rest := Attempts(b, retries + 1, ended + Backoff(retries), script);
      rest.(sent := [now] + rest.sent)
    else
      Call(FailureRecorded(b, ended), Failed, [now], ended)
  }

  function Prepend(earlier: seq<real>, c: Call): Call {
    c.(sent := earlier + c.sent)
  }

  /** What the loop does with a reply that it does not retry. */
  function Concluded(b: Breaker, reply: Reply, ended: real): (Breaker, Outcome) {
    if reply.Response? && !Transient(reply) then (Breaker(0, false, b.lastFailure), Returned(reply.status))
    else if reply.Unexpected? then (b, Escaped)
    else (FailureRecorded(b, ended), Failed)
  }

  /** A round of the loop, with the attempts already sent, is the last one or leads to the next. */
  lemma RoundConcludes(b: Breaker, retries: nat, now: real, script: seq<Attempt>, sent: seq<real>, ended: real)
    requires IsScript(script) && retries <= MAX_RETRIES && ended == now + script[retries].took
    requires !(Transient(script[retries].reply) && retries < MAX_RETRIES)
    ensures var (after, outcome) := Concluded(b, script[retries].reply, ended);
      Prepend(sent, Attempts(b, retries, now, script)) == Call(after, outcome, sent + [now], ended)
  {
  }

  lemma RoundRetries(b: Breaker, retries: nat, now: real, script: seq<Attempt>, sent: seq<real>, next: real)
    requires IsScript(script) && retries < MAX_RETRIES && Transient(script[retries].reply)
    requires next == now + script[retries].took + Backoff(retries)
    ensures Prepend(sent, Attempts(b, retries, now, script))
      == Prepend(sent + [now], Attempts(b, retries + 1, next, script))
  {
    var rest := Attempts(b, retries + 1, next, script);
    assert Attempts(b, retries, now, script) == rest.(sent := [now] + rest.sent);
    assert sent + ([now] + rest.sent) == sent + [now] + rest.sent;
  }

  lemma BackoffDoubles(n: nat)
    ensures Backoff(0) == 1.0 && Backoff(n + 1) == Backoff(n) * 2.0
  {
  }

  predicate IsBlocked(b: Breaker, now: real) {
    b.degraded && now - b.lastFailure < COOLDOWN
  }

  function Execute(b: Breaker, verb: Verb, now: real, script: seq<Attempt>): Call
    requires IsScript(script)
  {
    if IsBlocked(b, now) then Call(b, Blocked, [], now)
    else if verb.Unsupported? then Call(b, Escaped, [], now)
    else Attempts(b, 0, now, script)
  }

  class InferenceClient {
    var consecutiveFailures: nat
    var isDegraded: bool
    var lastFailureTime: real

    function State(): Breaker
      reads this
    {
      Breaker(consecutiveFailures, isDegraded, lastFailureTime)
    }

    constructor ()
      ensures State() == Breaker(0, false, 0.0)
    {
      consecutiveFailures, isDegraded, lastFailureTime := 0, false, 0.0;
    }

    /** A reply that is not retried resets the breaker, leaves it alone, or counts as a failure. */
    method Conclude(reply: Reply, ended: real) returns (outcome: Outcome)
      modifies this
      ensures (State(), outcome) == Concluded(old(State()), reply, ended)
    {
      if reply.Response? && !Transient(reply) {
        consecutiveFailures := 0;
        isDegraded := false;
        return Returned(reply.status);
      }
      if reply.Unexpected? { return Escaped; }
      consecutiveFailures := consecutiveFailures + 1;
      lastFailureTime := ended;
      if consecutiveFailures >= MAX_FAILURES {
        isDegraded := true;
      }
      return Failed;
    }

    /** The retry loop of an admitted call. */
    method Retry(now: real, script: seq<Attempt>) returns (outcome: Outcome, sent: seq<real>, end: real)
      requires IsScript(script)
      modifies this
      ensures Call(State(), outcome, sent, end) == Attempts(old(State()), 0, now, script)
    {
      sent, end := [], now;
      var retries, delay := 0, 1.0;
      ghost var b, whole := State(), Attempts(State(), 0, now, script);
      assert whole == Prepend([], whole);
      BackoffDoubles(0);
      assert |script| == MAX_RETRIES + 1;
      hide *;
      while true
        invariant retries <= MAX_RETRIES && delay == Backoff(retries)
        invariant State() == b == old(State())
        invariant whole == Prepend(sent, Attempts(b, retries, end, script))
        decreases MAX_RETRIES - retries
      {
        var reply, ended := script[retries].reply, end + script[retries].took;
        if Transient(reply) && retries < MAX_RETRIES {
          var next := ended + delay;
          RoundRetries(b, retries, end, script, sent, next);
          BackoffDoubles(retries);
          sent, end := sent + [end], next;
          retries := retries + 1;
          delay := delay * 2.0;
          continue;
        }
        RoundConcludes(b, retries, end, script, sent, ended);
        outcome := Conclude(reply, ended);
        return outcome, sent + [end], ended;
      }
    }

    /** `now` is the clock at the call; the loop adds up the attempts' durations and the sleeps. */
    method ExecuteRequestWithRetry(verb: Verb, now: real, script: seq<Attempt>)
      returns (outcome: Outcome, sent: seq<real>, end: real)
      requires IsScript(script)
      modifies this
      ensures Call(State(), outcome, sent, end) == Execute(old(State()), verb, now, script)
    {
      hide Attempts;
      if isDegraded {
        if now - lastFailureTime < COOLDOWN {
          return Blocked, [], now;
        }
      }
      if verb.Unsupported? { return Escaped, [], now; }
      outcome, sent, end := Retry(now, script);
    }
  }

  // ------------------------------------------------------------ one call

  /** Attempt `j` of these starts its backoff after the end of the one before. */
  predicate OnSchedule(sent: seq<real>, retries: nat, script: seq<Attempt>)
    requires IsScript(script) && retries + |sent| <= MAX_RETRIES + 1
  {
    forall j :: 0 < j < |sent| ==> sent[j] == sent[j-1] + script[retries + j - 1].took + Backoff(retries + j - 1)
  }

  lemma {:induction false} AttemptsTiming(b: Breaker, retries: nat, now: real, script: seq<Attempt>)
    requires IsScript(script) && retries <= MAX_RETRIES
    ensures var c := Attempts(b, retries, now, script);
      && 1 <= |c.sent| <= MAX_RETRIES + 1 - retries && c.sent[0] == now
      && (forall j :: 0 <= j < |c.sent| ==> now <= c.sent[j] <= c.end)
      && OnSchedule(c.sent, retries, script)
    decreases MAX_RETRIES - retries
  {
    var c := Attempts(b, retries, now, script);
    var reply, ended := script[retries].reply, now + script[retries].took;
    if Transient(reply) && retries < MAX_RETRIES {
      BackoffPositive(retries);
      var next := ended + Backoff(retries);
      AttemptsTiming(b, retries + 1, next, script);
      var rest := Attempts(b, retries + 1, next, script);
      assert c.sent == [now] + rest.sent && c.end == rest.end;
      hide Attempts, OnSchedule, Backoff;
      ScheduleExtends(rest.sent, retries, now, script);
    } else {
      assert c.sent == [now] && c.end == ended;
    }
  }

  lemma ScheduleExtends(rest: seq<real>, retries: nat, now: real, script: seq<Attempt>)
    requires IsScript(script) && retries < MAX_RETRIES && 1 <= |rest| <= MAX_RETRIES - retries
    requires OnSchedule(rest, retries + 1, script)
    requires rest[0] == now + script[retries].took + Backoff(retries)
    ensures OnSchedule([now] + rest, retries, script)
  {
    var sent := [now] + rest;
    forall j | 0 < j < |sent|
      ensures sent[j] == sent[j-1] + script[retries + j - 1].took + Backoff(retries + j - 1)
    {
      if j > 1 {
        assert sent[j] == rest[j-1] && sent[j-1] == rest[j-2];
        hide Backoff;
      }
    }
  }

  lemma {:induction false} BackoffPositive(n: nat)
    ensures Backoff(n) >= 1.0
  {
    if n > 0 { BackoffPositive(n - 1); }
  }

  /** A call sends at most four attempts, each one its backoff after the previous attempt ended:
      1, 2 and 4 seconds. */
  lemma RetrySchedule(b: Breaker, verb: Verb, now: real, script: seq<Attempt>)
    requires IsScript(script)
    ensures var c := Execute(b, verb, now, script);
      && |c.sent| <= 4 && now <= c.end
      && (forall j :: 0 <= j < |c.sent| ==> now <= c.sent[j] <= c.end)
      && (forall j :: 0 < j < |c.sent| ==>
            c.sent[j] - (c.sent[j-1] + script[j-1].took) == if j == 1 then 1.0 else if j == 2 then 2.0 else 4.0)
  {
  }

  lemma {:induction false} AttemptsBreaker(b: Breaker, retries: nat, now: real, script: seq<Attempt>)
    requires IsScript(script) && retries <= MAX_RETRIES
    ensures var c := Attempts(b, retries, now, script);
      && (c.outcome.Returned? ==> c.breaker == Breaker(0, false, b.lastFailure))
      && (c.outcome.Failed? ==> c.breaker == FailureRecorded(b, c.end))
      && (c.outcome.Escaped? ==> c.breaker == b)
      && !c.outcome.Blocked?
    decreases MAX_RETRIES - retries
  {
    var reply, ended := script[retries].reply, now + script[retries].took;
    if Transient(reply) && retries < MAX_RETRIES {
      var next := ended + Backoff(retries);
      var rest := Attempts(b, retries + 1, next, script);
      assert Attempts(b, retries, now, script) == rest.(sent := [now] + rest.sent);
      hide Attempts, Backoff;
      AttemptsBreaker(b, retries + 1, next, script);
    }
  }

  /** An answer that is final: what it makes of the call. */
  function Final(reply: Reply): Outcome {
    match reply
    case Response(status) => Returned(status)
    case Unexpected => Escaped
    case _ => Failed
  }

  lemma {:induction false} AttemptsAnswer(b: Breaker, retries: nat, now: real, script: seq<Attempt>, n: nat)
    requires IsScript(script) && retries <= n <= 4 && retries <= MAX_RETRIES
    requires forall i :: retries <= i < n ==>
      script[i].reply in {ConnectionTrouble, Response(502), Response(503), Response(504)}
    requires n < 4 ==> script[n].reply !in {ConnectionTrouble, Response(502), Response(503), Response(504)}
    ensures var c := Attempts(b, retries, now, script);
      && |c.sent| == (if n < 4 then n + 1 else 4) - retries
      && c.outcome == if n < 4 then Final(script[n].reply) else Failed
    decreases MAX_RETRIES - retries
  {
    hide Backoff, Transient;
    var reply := script[retries].reply;
    TransientIff(reply);
    if retries < n && retries < MAX_RETRIES {
      var next := now + script[retries].took + Backoff(retries);
      AttemptsAnswer(b, retries + 1, next, script, n);
    }
  }

  lemma TransientIff(reply: Reply)
    ensures Transient(reply) <==> reply in {ConnectionTrouble, Response(502), Response(503), Response(504)}
  {
  }

  /** The answer of an admitted call.  Of the replies it would meet, let n leading ones be connection
      trouble or a status 502, 503 or 504: these are retried while the three retries last, and the
      first other reply ends the call: a response is returned whatever its status, an exception the
      loop does not catch escapes, and any other request error is a failure at once. */
  lemma AnswerOfCall(b: Breaker, verb: Verb, now: real, script: seq<Attempt>, n: nat)
    requires IsScript(script) && n <= 4
    requires verb == GET || verb == POST
    requires b.degraded ==> now - b.lastFailure >= 30.0
    requires forall i :: 0 <= i < n ==>
      script[i].reply in {ConnectionTrouble, Response(502), Response(503), Response(504)}
    requires n < 4 ==> script[n].reply !in {ConnectionTrouble, Response(502), Response(503), Response(504)}
    ensures var c := Execute(b, verb, now, script);
      && |c.sent| == (if n < 4 then n + 1 else 4) && c.sent[0] == now
      && (forall k :: c.outcome == Returned(k) <==> n < 4 && script[n].reply == Response(k))
      && (c.outcome.Escaped? <==> n < 4 && script[n].reply.Unexpected?)
      && (c.outcome.Failed? <==> n == 4 || script[n].reply.OtherRequestError?)
  {
    AttemptsAnswer(b, 0, now, script, n);
    AttemptsTiming(b, 0, now, script);
    hide Attempts;
  }

  /** And of the others: an open breaker blocks until 30 seconds after its last failure, whatever the
      verb, and an unsupported verb escapes; neither sends anything or changes the breaker. */
  lemma RefusedIff(b: Breaker, verb: Verb, now: real, script: seq<Attempt>)
    requires IsScript(script)
    ensures var c := Execute(b, verb, now, script);
      && (c.outcome.Blocked? <==> b.degraded && now < b.lastFailure + 30.0)
      && (c.sent == [] <==> c.outcome.Blocked? || verb.Unsupported?)
      && (c.sent == [] ==> c.breaker == b && c.end == now)
      && (c.sent == [] && !c.outcome.Blocked? ==> c.outcome.Escaped?)
  {
    AttemptsTiming(b, 0, now, script);
    AttemptsBreaker(b, 0, now, script);
    hide Attempts;
  }

  // ------------------------------------------------------------ whole runs

  datatype Request = Request(verb: Verb, start: real, script: seq<Attempt>)

  predicate Scripted(rs: seq<Request>) {
    forall r :: r in rs ==> IsScript(r.script)
  }

  function Run(b: Breaker, rs: seq<Request>): Breaker
    requires Scripted(rs)
    decreases |rs|
  {
    if rs == [] then b else Run(Execute(b, rs[0].verb, rs[0].start, rs[0].script).breaker, rs[1..])
  }

  function Outcomes(b: Breaker, rs: seq<Request>): seq<Outcome>
    requires Scripted(rs)
    decreases |rs|
  {
    if rs == [] then []
    else
      var c := Execute(b, rs[0].verb, rs[0].start, rs[0].script);
      [c.outcome] + Outcomes(c.breaker, rs[1..])
  }

  /** How many calls failed since the last one that got a response. */
  function TrailingFailures(os: seq<Outcome>): nat
    decreases |os|
  {
    if os == [] then 0
    else match os[|os| - 1]
      case Returned(_) => 0
      case Failed => 1 + TrailingFailures(os[..|os| - 1])
      case Blocked => TrailingFailures(os[..|os| - 1])
      case Escaped => TrailingFailures(os[..|os| - 1])
  }

  predicate HasReturn(os: seq<Outcome>) {
    exists i :: 0 <= i < |os| && os[i].Returned?
  }

  lemma {:induction false} TrailingAppend(os: seq<Outcome>, more: seq<Outcome>)
    ensures TrailingFailures(os + more) ==
      TrailingFailures(more) + if HasReturn(more) then 0 else TrailingFailures(os)
    decreases |more|
  {
    if more == [] {
      assert os + more == os;
    } else {
      var k := |more| - 1;
      assert (os + more)[..|os + more| - 1] == os + more[..k];
      TrailingAppend(os, more[..k]);
      if HasReturn(more) && !more[k].Returned? {
        var i :| 0 <= i < |more| && more[i].Returned?;
        assert more[..k][i].Returned?;
      }
      if HasReturn(more[..k]) {
        var i :| 0 <= i < k && more[..k][i].Returned?;
        assert more[i].Returned?;
      }
    }
  }

  /** What one call does to the breaker. */
  lemma CallCounts(b: Breaker, r: Request)
    requires IsScript(r.script)
    ensures var c := Execute(b, r.verb, r.start, r.script);
      match c.outcome
      case Returned(_) => c.breaker.failures == 0 && !c.breaker.degraded
      case Failed => c.breaker.failures == b.failures + 1
        && c.breaker.degraded == (b.degraded || b.failures + 1 >= MAX_FAILURES)
      case Blocked => c.breaker == b
      case Escaped => c.breaker == b
  {
    if !IsBlocked(b, r.start) && !r.verb.Unsupported? { AttemptsBreaker(b, 0, r.start, r.script); }
    hide Attempts;
  }

  lemma {:induction false} CounterFrom(b: Breaker, rs: seq<Request>)
    requires Scripted(rs) && (b.degraded <==> b.failures >= MAX_FAILURES)
    ensures var s, os := Run(b, rs), Outcomes(b, rs);
      && s.failures == TrailingFailures(os) + (if HasReturn(os) then 0 else b.failures)
      && (s.degraded <==> s.failures >= MAX_FAILURES)
    decreases |rs|
  {
    if rs != [] {
      assert rs[0] in rs;
      var c := Execute(b, rs[0].verb, rs[0].start, rs[0].script);
      CallCounts(b, rs[0]);
      hide Execute;
      CounterFrom(c.breaker, rs[1..]);
      var rest := Outcomes(c.breaker, rs[1..]);
      TrailingAppend([c.outcome], rest);
      assert TrailingFailures([c.outcome]) == if c.outcome.Failed? then 1 else 0 by {
        assert [c.outcome][..0] == [];
      }
      if HasReturn(rest) {
        var i :| 0 <= i < |rest| && rest[i].Returned?;
        assert Outcomes(b, rs)[i+1].Returned?;
      }
      if c.outcome.Returned? { assert Outcomes(b, rs)[0].Returned?; }
    }
  }

  /** Over every run of a new client the counter is the trailing number of failed calls, blocked
      calls not counting, and the breaker is open exactly when that number is at least five. */
  lemma CounterIsTrailingFailures(rs: seq<Request>)
    requires Scripted(rs)
    ensures var s := Run(Breaker(0, false, 0.0), rs);
      && s.failures == TrailingFailures(Outcomes(Breaker(0, false, 0.0), rs))
      && (s.degraded <==> TrailingFailures(Outcomes(Breaker(0, false, 0.0), rs)) >= 5)
  {
    CounterFrom(Breaker(0, false, 0.0), rs);
  }

  // ------------------------------------- how often an open breaker lets through

  function SentTimes(b: Breaker, rs: seq<Request>): seq<real>
    requires Scripted(rs)
    decreases |rs|
  {
    if rs == [] then []
    else
      var c := Execute(b, rs[0].verb, rs[0].start, rs[0].script);
      c.sent + SentTimes(c.breaker, rs[1..])
  }

  /** One caller: each call starts when the previous one has ended. */
  predicate Sequential(b: Breaker, from: real, rs: seq<Request>)
    requires Scripted(rs)
    decreases |rs|
  {
    rs == [] ||
    var c := Execute(b, rs[0].verb, rs[0].start, rs[0].script);
    from <= rs[0].start && Sequential(c.breaker, c.end, rs[1..])
  }

  /** No call gets a response. */
  predicate NoResponse(b: Breaker, rs: seq<Request>)
    requires Scripted(rs)
    decreases |rs|
  {
    rs == [] ||
    var c := Execute(b, rs[0].verb, rs[0].start, rs[0].script);
    !c.outcome.Returned? && NoResponse(c.breaker, rs[1..])
  }

  function CountIn(ts: seq<real>, lo: real, hi: real): nat {
    if ts == [] then 0 else (if lo <= ts[0] <= hi then 1 else 0) + CountIn(ts[1..], lo, hi)
  }

  /** How many calls sent something between `lo` and `hi` and were left by an uncaught exception. */
  function EscapedCalls(b: Breaker, rs: seq<Request>, lo: real, hi: real): nat
    requires Scripted(rs)
    decreases |rs|
  {
    if rs == [] then 0
    else
      var c := Execute(b, rs[0].verb, rs[0].start, rs[0].script);
      (if c.outcome.Escaped? && CountIn(c.sent, lo, hi) > 0 then 1 else 0) + EscapedCalls(c.breaker, rs[1..], lo, hi)
  }

  lemma {:induction false} CountAppend(a: seq<real>, b: seq<real>, lo: real, hi: real)
    ensures CountIn(a + b, lo, hi) == CountIn(a, lo, hi) + CountIn(b, lo, hi)
  {
    if a == [] {
      assert a + b == b;
    } else {
      assert (a + b)[1..] == a[1..] + b;
      CountAppend(a[1..], b, lo, hi);
    }
  }

  lemma {:induction false} CountBounds(ts: seq<real>, lo: real, hi: real)
    ensures CountIn(ts, lo, hi) <= |ts|
    ensures (forall j :: 0 <= j < |ts| ==> ts[j] < lo || ts[j] > hi) ==> CountIn(ts, lo, hi) == 0
  {
    if ts != [] {
      CountBounds(ts[1..], lo, hi);
      if forall j :: 0 <= j < |ts| ==> ts[j] < lo || ts[j] > hi {
        assert forall j :: 0 <= j < |ts[1..]| ==> ts[1..][j] == ts[j+1];
      }
    }
  }

  /** What one call does to an open breaker that is not getting through. */
  lemma OpenCall(b: Breaker, r: Request)
    requires IsScript(r.script) && b.degraded && b.lastFailure <= r.start
    requires !Execute(b, r.verb, r.start, r.script).outcome.Returned?
    ensures var c := Execute(b, r.verb, r.start, r.script);
      && c.breaker.degraded && c.breaker.lastFailure <= c.end
      && |c.sent| <= 4 && (forall j :: 0 <= j < |c.sent| ==> r.start <= c.sent[j] <= c.end)
      && (c.sent != [] && !c.outcome.Escaped? ==> b.lastFailure + COOLDOWN <= r.start && c.breaker.lastFailure == c.end)
      && (c.sent == [] || c.outcome.Escaped? ==> c.breaker == b)
  {
    RetrySchedule(b, r.verb, r.start, r.script);
    if !IsBlocked(b, r.start) && !r.verb.Unsupported? {
      AttemptsBreaker(b, 0, r.start, r.script);
      AttemptsTiming(b, 0, r.start, r.script);
    }
  }

  lemma CountNothing(lo: real, hi: real)
    ensures CountIn([], lo, hi) == 0
  {
  }

  lemma CooldownPeriods(early: real, late: real, hi: real)
    requires early + COOLDOWN <= late <= hi
    ensures ((hi - late) / COOLDOWN).Floor + 1 <= ((hi - early) / COOLDOWN).Floor
  {
  }

  lemma PeriodsMonotone(a: real, b: real)
    requires 0.0 <= a <= b
    ensures 0 <= (a / COOLDOWN).Floor <= (b / COOLDOWN).Floor
  {
  }

  /** Until `hi`, an open breaker that last failed at `f` lets four attempts through per 30 seconds, and
      four per call that an uncaught exception leaves. */
  lemma {:induction false} OpenBound(b: Breaker, from: real, rs: seq<Request>, lo: real, hi: real)
    requires Scripted(rs) && b.degraded && b.lastFailure <= from
    requires Sequential(b, from, rs) && NoResponse(b, rs)
    ensures CountIn(SentTimes(b, rs), lo, hi) <=
      4 * EscapedCalls(b, rs, lo, hi) + if b.lastFailure <= hi then 4 * ((hi - b.lastFailure) / COOLDOWN).Floor else 0
    decreases |rs|
  {
    hide Execute, CountIn;
    if rs != [] {
      var r := rs[0];
      assert r in rs;
      var c := Execute(b, r.verb, r.start, r.script);
      OpenCall(b, r);
      var later := SentTimes(c.breaker, rs[1..]);
      assert SentTimes(b, rs) == c.sent + later;
      OpenBound(c.breaker, c.end, rs[1..], lo, hi);
      CountAppend(c.sent, later, lo, hi);
      CountBounds(c.sent, lo, hi);
      if c.sent != [] { assert r.start <= c.sent[0] <= c.end; }
      assert c.sent == [] ==> CountIn(c.sent, lo, hi) == 0 by { CountNothing(lo, hi); }
      if c.sent == [] || c.outcome.Escaped? {
      } else if c.end <= hi {
        CooldownPeriods(b.lastFailure, c.end, hi);
      } else if r.start <= hi {
        CooldownPeriods(b.lastFailure, r.start, hi);
        PeriodsMonotone(0.0, hi - r.start);
      } else if b.lastFailure <= hi {
        PeriodsMonotone(0.0, hi - b.lastFailure);
      }
    } else {
      CountNothing(lo, hi);
      if b.lastFailure <= hi { PeriodsMonotone(0.0, hi - b.lastFailure); }
    }
  }

  /** One caller, breaker open and no response: any window of length `len` sees at most
      4 * (floor(len / 30) + 1) HTTP attempts, and four more for each call with attempts in the window
      that an uncaught exception left. */
  lemma {:induction false} OpenBreakerRate(b: Breaker, from: real, rs: seq<Request>, lo: real, len: real)
    requires Scripted(rs) && b.degraded && b.lastFailure <= from && len >= 0.0
    requires Sequential(b, from, rs) && NoResponse(b, rs)
    ensures CountIn(SentTimes(b, rs), lo, lo + len) <=
      4 * ((len / 30.0).Floor + 1) + 4 * EscapedCalls(b, rs, lo, lo + len)
    decreases |rs|
  {
    hide Execute, CountIn;
    if rs != [] {
      var r := rs[0];
      assert r in rs;
      var c := Execute(b, r.verb, r.start, r.script);
      OpenCall(b, r);
      var later := SentTimes(c.breaker, rs[1..]);
      assert SentTimes(b, rs) == c.sent + later;
      if c.sent == [] || c.outcome.Escaped? || c.end < lo {
        OpenBreakerRate(c.breaker, c.end, rs[1..], lo, len);
      } else {
        OpenBound(c.breaker, c.end, rs[1..], lo, lo + len);
      }
      CountAppend(c.sent, later, lo, lo + len);
      CountBounds(c.sent, lo, lo + len);
      if c.sent != [] && lo <= c.end <= lo + len { PeriodsMonotone(lo + len - c.end, len); }
    }
    CountNothing(lo, lo + len);
    PeriodsMonotone(0.0, len);
  }

  /** The second term is needed: an exception the loop does not catch leaves the breaker's clock alone,
      so after the cooldown such calls are not limited at all, any number of attempts in one instant. */
  lemma {:induction false} EscapesAreNotLimited(b: Breaker, at: real, n: nat) returns (rs: seq<Request>)
    requires b.degraded && at >= b.lastFailure + COOLDOWN
    ensures Scripted(rs) && Sequential(b, at, rs) && !HasReturn(Outcomes(b, rs))
    ensures CountIn(SentTimes(b, rs), at, at) == n
  {
    if n == 0 {
      rs := [];
    } else {
      var rest := EscapesAreNotLimited(b, at, n - 1);
      var a := Attempt(Unexpected, 0.0);
      var r := Request(POST, at, [a, a, a, a]);
      rs := [r] + rest;
      assert rs[1..] == rest;
      EscapedCall(b, r);
      hide Execute;
      var c := Execute(b, r.verb, r.start, r.script);
      assert SentTimes(b, rs) == [at] + SentTimes(b, rest);
      CountAppend([at], SentTimes(b, rest), at, at);
      assert Outcomes(b, rs) == [Escaped] + Outcomes(b, rest);
      assert [at][1..] == [];
    }
  }

  lemma EscapedCall(b: Breaker, r: Request)
    requires b.degraded && r.start >= b.lastFailure + COOLDOWN && r.verb.POST?
    requires IsScript(r.script) && r.script[0] == Attempt(Unexpected, 0.0)
    ensures Execute(b, r.verb, r.start, r.script) == Call(b, Escaped, [r.start], r.start)
  {
  }
}
