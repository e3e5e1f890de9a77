/**
 * The readiness probe of the shoot DNS system test: `runHttpRequest` polls a freshly
 * published DNS name until it resolves through an explicitly chosen DNS server and
 * answers a plain HTTP GET with status 200, or until a deadline passes.
 *
 * The clock, the resolver and the HTTP client are the environment. The environment is
 * given as an `Env` value: how long each iteration takes on top of its one-second sleep,
 * and what the resolver and the HTTP client answer in each iteration. Clock readings are
 * nanoseconds (the unit of Go's `time.Duration`), counted from the moment the deadline
 * `end` is computed.
 */
module ReadinessProbe {
  import opened Wrappers

  /** `time.Second` in nanoseconds. */
  const Second: int := 1_000_000_000

  /** The DNS server every lookup is sent to. */
  const DnsServer: string := "8.8.8.8"

  /** The only HTTP status code accepted as ready. */
  const StatusOK: int := 200

  /** What `lookupHost` answers: the host's addresses, or an error. */
  datatype LookupResult = Resolved(addrs: seq<string>) | LookupFailed(cause: string)

  /** What `http.Get` answers: a response with its status code, or an error. */
  datatype GetResult = Response(statusCode: int) | GetFailed(cause: string)

  /** The errors `runHttpRequest` records in `lastErr`. */
  datatype ProbeError =
    | LookupError(host: string, cause: string)  // the lookup error, wrapped with the host name
    | GetError(cause: string)                   // the error of `http.Get`, returned as it is
    | StatusError(statusCode: int)              // "unexpected status code", carrying the code

  /**
   * The environment of one call. `lag` is the time between computing `end` and the first
   * check of the loop condition; iteration `i` lasts `Second + extra(i)` (the sleep, then the
   * lookup and the GET); `lookup(i)` and `get(i)` are the answers of iteration `i` (`get(i)`
   * is consulted only when the lookup succeeded).
   */
  datatype Env = Env(
    lag: nat,
    extra: nat -> nat,
    lookup: nat -> LookupResult,
    get: nat -> GetResult)

  /** The side effects of one call, in order; `iter` is the iteration performing them. */
  datatype Event =
    | Sleep(iter: nat)
    | Lookup(iter: nat, host: string, server: string)
    | Get(iter: nat, url: string)
    | CloseBody(iter: nat)

  /** The error returned (None for nil) and the number of loop iterations executed. */
  datatype Outcome = Outcome(err: Option<ProbeError>, attempts: nat)

  /** The URL probed for a domain name. */
  function Url(domainName: string): (url: string)
    ensures |url| == 7 + |domainName|
    ensures url[..7] == "http://" && url[7..] == domainName
  {
    "http://" + domainName
  }

  /**
   * The clock reading when the loop condition is checked for the `i`-th time (counting
   * from 0): every iteration before it took at least the one-second sleep.
   */
  function CheckTime(env: Env, i: nat): (t: int)
    ensures t >= env.lag + i * Second
  {
    if i == 0 then env.lag else CheckTime(env, i - 1) + Second + env.extra(i - 1)
  }

  /** Iteration `i` is fully successful: the lookup resolved and the GET answered 200. */
  predicate IterationReady(env: Env, i: nat) {
    env.lookup(i).Resolved? && env.get(i) == Response(StatusOK)
  }

  /** What iteration `i` records in `lastErr`; None when it returns nil instead. */
  function IterationError(host: string, env: Env, i: nat): (e: Option<ProbeError>)
    ensures e.None? <==> IterationReady(env, i)
    ensures env.lookup(i).LookupFailed? ==> e == Some(LookupError(host, env.lookup(i).cause))
    ensures env.lookup(i).Resolved? && env.get(i).GetFailed? ==> e == Some(GetError(env.get(i).cause))
    ensures env.lookup(i).Resolved? && env.get(i).Response? && env.get(i).statusCode != StatusOK ==>
              e == Some(StatusError(env.get(i).statusCode))
  {
    match env.lookup(i)
    case LookupFailed(cause) => Some(LookupError(host, cause))
    case Resolved(_) =>
      match env.get(i)
      case GetFailed(cause) => Some(GetError(cause))
      case Response(code) => if code != StatusOK then Some(StatusError(code)) else None
  }

  /**
   * The error the probe returns once `n` iterations have run: nil when none ran (`lastErr`
   * is never assigned) or when the last one succeeded (the probe then returns nil, whatever
   * `lastErr` still holds from an earlier iteration); otherwise what the last one recorded.
   */
  function LastError(host: string, env: Env, n: nat): (e: Option<ProbeError>)
    ensures e.None? <==> n == 0 || IterationReady(env, n - 1)
  {
    if n == 0 then None else IterationError(host, env, n - 1)
  }

  /** The events of iteration `i`: sleep, lookup, and, if it resolved, the GET and the close. */
  function IterationEvents(host: string, env: Env, i: nat): (events: seq<Event>)
    ensures |events| >= 2 && events[0] == Sleep(i) && events[1] == Lookup(i, host, DnsServer)
  {
    [Sleep(i), Lookup(i, host, DnsServer)]
    + match env.lookup(i)
      case LookupFailed(_) => []
      case Resolved(_) => [Get(i, Url(host))] + (if env.get(i).Response? then [CloseBody(i)] else [])
  }

  /**
   * An iteration performs the GET exactly when its lookup succeeded, on the URL of the
   * probed host, and closes the body exactly when the GET got a response.
   */
  lemma IterationEventsFacts(host: string, env: Env, i: nat)
    ensures forall e :: e in IterationEvents(host, env, i) ==> e.iter == i && (e.Get? ==> e.url == Url(host))
    ensures Get(i, Url(host)) in IterationEvents(host, env, i) <==> env.lookup(i).Resolved?
    ensures CloseBody(i) in IterationEvents(host, env, i) <==> env.lookup(i).Resolved? && env.get(i).Response?
  {
  }

  /** The events of the first `n` iterations. */
  function Trace(host: string, env: Env, n: nat): (trace: seq<Event>)
    ensures 2 * n <= |trace| <= 4 * n
  {
    if n == 0 then [] else Trace(host, env, n - 1) + IterationEvents(host, env, n - 1)
  }

  /**
   * The loop as a function: the outcome when the loop condition is about to be checked for
   * the `i`-th time with `lastErr` recorded so far.
   */
  function RunFrom(host: string, timeout: int, env: Env, i: nat, lastErr: Option<ProbeError>): (o: Outcome)
    ensures i <= o.attempts
    ensures o.attempts == i ==> o.err == lastErr && timeout <= CheckTime(env, i)
    ensures i < o.attempts ==> CheckTime(env, i) < timeout
    decreases timeout - CheckTime(env, i)
  {
    if timeout <= CheckTime(env, i) then Outcome(lastErr, i)
    else match IterationError(host, env, i)
      case None => Outcome(None, i + 1)
      case Some(e) => RunFrom(host, timeout, env, i + 1, Some(e))
  }

  /**
   * The outcome of `runHttpRequest(host, timeout)` in environment `env`; it keeps every
   * promise of `Explains`.
   */
  function Run(host: string, timeout: int, env: Env): (o: Outcome)
    ensures Explains(host, timeout, env, o)
  {
    RunFromExplains(host, timeout, env, 0, None);
    RunFrom(host, timeout, env, 0, None)
  }

  /**
   * What the loop promises about an outcome `o`, stated without running it: the error is
   * what the last executed iteration recorded (nil if none ran); every iteration but the
   * last failed; the last one started before the deadline; and the loop stopped either
   * on a fully successful iteration or because the deadline had passed.
   */
  ghost predicate Explains(host: string, timeout: int, env: Env, o: Outcome) {
    && o.err == LastError(host, env, o.attempts)
    && (forall j :: 0 <= j < o.attempts - 1 ==> IterationError(host, env, j).Some?)
    && (o.attempts == 0 || CheckTime(env, o.attempts - 1) < timeout)
    && ((o.attempts > 0 && o.err.None?) || timeout <= CheckTime(env, o.attempts))
  }

  /** `ceil(t / d)` for a positive `d`, and 0 for a `t` that is not positive. */
  function CeilDiv(t: int, d: int): int
    requires d > 0
  {
    if t <= 0 then 0 else (t + d - 1) / d
  }

  /**
   * One iteration of the loop of `runHttpRequest`: sleep one second, look the host up at
   * the DNS server and, only if that succeeded, GET the URL, close the body of the
   * response and check its status code. `failure` is what the iteration records in
   * `lastErr` (None when it returns nil), `elapsed` the time it takes.
   */
  method Attempt(domainName: string, env: Env, i: nat)
    returns (failure: Option<ProbeError>, elapsed: int, ghost events: seq<Event>)
    ensures failure == IterationError(domainName, env, i)
    ensures elapsed == Second + env.extra(i) && elapsed >= Second
    ensures events == IterationEvents(domainName, env, i)
  {
    elapsed := Second;  // the one-second sleep
    events := [Sleep(i)];
    elapsed := elapsed + env.extra(i);  // the time the lookup and the GET below take
    var addrs := env.lookup(i);  // the lookup of the host at the DNS server
    events := events + [Lookup(i, domainName, DnsServer)];
    if addrs.LookupFailed? {
      return Some(LookupError(domainName, addrs.cause)), elapsed, events;
    }
    var resp := env.get(i);  // the GET of the host's URL
    events := events + [Get(i, Url(domainName))];
    if resp.GetFailed? {
      return Some(GetError(resp.cause)), elapsed, events;
    }
    events := events + [CloseBody(i)];  // the body of a received response is closed
    if resp.statusCode != StatusOK {
      return Some(StatusError(resp.statusCode)), elapsed, events;
    }
    failure := None;
  }

  /**
   * `runHttpRequest`: run iterations until one of them gets status 200 or the clock
   * reaches the deadline; the result is nil or the most recently recorded error. `i` is
   * the environment's position, not a counter of the source; `attempts`, `trace` and
   * `finish` (the clock reading at the return) are what the model observes of the run.
   */
  method RunHttpRequest(domainName: string, timeout: int, env: Env)
    returns (err: Option<ProbeError>, ghost attempts: nat, ghost trace: seq<Event>, ghost finish: int)
    ensures err == Run(domainName, timeout, env).err
    ensures attempts == Run(domainName, timeout, env).attempts
    ensures finish == CheckTime(env, attempts)
    ensures Explains(domainName, timeout, env, Outcome(err, attempts))
    ensures trace == Trace(domainName, env, attempts)
  {
    var lastErr: Option<ProbeError> := None;
    var end := timeout;   // the deadline: the timeout after the clock reading 0 taken now
    var now := env.lag;   // the clock reading at the first check of the loop condition
    var i: nat := 0;
    trace := [];
    while now < end
      invariant now == CheckTime(env, i)
      invariant lastErr == LastError(domainName, env, i)
      invariant forall j :: 0 <= j < i ==> IterationError(domainName, env, j).Some?
      invariant i == 0 || CheckTime(env, i - 1) < timeout
      invariant trace == Trace(domainName, env, i)
      decreases end - now
    {
      var failure, elapsed, events := Attempt(domainName, env, i);
      now := now + elapsed;
      trace := trace + events;
      if failure.None? {
        err, attempts, finish := None, i + 1, now;
        RunMatches(domainName, timeout, env, Outcome(err, attempts));
        return;
      }
      lastErr := failure;
      i := i + 1;
    }
    err, attempts, finish := lastErr, i, now;
    RunMatches(domainName, timeout, env, Outcome(err, attempts));
  }

  /** The clock never runs slower than one second per iteration. */
  lemma {:induction false} CheckTimeMonotone(env: Env, j: nat, i: nat)
    requires j <= i
    ensures CheckTime(env, j) + (i - j) * Second <= CheckTime(env, i)
    decreases i
  {
    if j < i {
      CheckTimeMonotone(env, j, i - 1);
    }
  }

  /** Without delays beyond the sleep, the `i`-th check happens exactly `i` seconds in. */
  lemma {:induction false} CheckTimeUniform(env: Env, i: nat)
    requires env.lag == 0
    requires forall k :: env.extra(k) == 0
    ensures CheckTime(env, i) == i * Second
  {
    if i > 0 {
      CheckTimeUniform(env, i - 1);
    }
  }

  lemma {:induction false} RunFromExplains(host: string, timeout: int, env: Env, i: nat, lastErr: Option<ProbeError>)
    requires lastErr == LastError(host, env, i)
    requires forall j :: 0 <= j < i ==> IterationError(host, env, j).Some?
    requires i == 0 || CheckTime(env, i - 1) < timeout
    ensures Explains(host, timeout, env, RunFrom(host, timeout, env, i, lastErr))
    decreases timeout - CheckTime(env, i)
  {
    if timeout > CheckTime(env, i) {
      match IterationError(host, env, i)
      case None =>
      case Some(e) => RunFromExplains(host, timeout, env, i + 1, Some(e));
    }
  }

  /** `Explains` leaves no freedom: it determines the number of iterations and the error. */
  lemma ExplainsUnique(host: string, timeout: int, env: Env, o1: Outcome, o2: Outcome)
    requires Explains(host, timeout, env, o1)
    requires Explains(host, timeout, env, o2)
    ensures o1 == o2
  {
    ExplainedAttemptsAtMost(host, timeout, env, o1, o2);
    ExplainedAttemptsAtMost(host, timeout, env, o2, o1);
  }

  lemma ExplainedAttemptsAtMost(host: string, timeout: int, env: Env, o1: Outcome, o2: Outcome)
    requires Explains(host, timeout, env, o1)
    requires Explains(host, timeout, env, o2)
    ensures o1.attempts <= o2.attempts
  {
    if o2.attempts < o1.attempts {
      // o2 stopped early, on a success or at the deadline; o1 saw that iteration fail and
      // started a later one before the deadline
      CheckTimeMonotone(env, o2.attempts, o1.attempts - 1);
    }
  }

  /** Every outcome that `Explains` accepts is the one `Run` computes. */
  lemma RunMatches(host: string, timeout: int, env: Env, o: Outcome)
    requires Explains(host, timeout, env, o)
    ensures o == Run(host, timeout, env)
  {
    ExplainsUnique(host, timeout, env, o, Run(host, timeout, env));
  }

  /**
   * Nil comes back exactly when no iteration ran or the last one was fully successful;
   * otherwise the error is the one the last executed iteration recorded, every executed
   * iteration failed, and the deadline had passed.
   */
  lemma RunResult(host: string, timeout: int, env: Env)
    ensures var o := Run(host, timeout, env);
      o.err.None? <==> o.attempts == 0 || IterationReady(env, o.attempts - 1)
    ensures var o := Run(host, timeout, env);
      o.err.Some? ==>
        && o.attempts >= 1
        && o.err == IterationError(host, env, o.attempts - 1)
        && (forall j :: 0 <= j < o.attempts ==> !IterationReady(env, j))
        && timeout <= CheckTime(env, o.attempts)
  {
    var o := Run(host, timeout, env);
    forall j | 0 <= j < o.attempts && o.err.Some?
      ensures !IterationReady(env, j)
    {
      assert IterationError(host, env, j).Some?;
    }
  }

  /** When the deadline is not after the first check of the loop condition, nil comes back. */
  lemma NoIterationNoError(host: string, timeout: int, env: Env)
    requires timeout <= env.lag
    ensures Run(host, timeout, env) == Outcome(None, 0)
  {
  }

  /**
   * A fully successful iteration that starts before the deadline is never missed: the
   * loop has returned nil by then.
   */
  lemma ReadyBeforeDeadlineIsSeen(host: string, timeout: int, env: Env, j: nat)
    requires IterationReady(env, j)
    requires CheckTime(env, j) < timeout
    ensures Run(host, timeout, env).err.None?
    ensures 1 <= Run(host, timeout, env).attempts <= j + 1
  {
    var o := Run(host, timeout, env);
    assert IterationError(host, env, j).None?;
    if o.attempts <= j {
      CheckTimeMonotone(env, o.attempts, j);
    }
  }

  /**
   * At least one iteration runs exactly when the deadline is after the first check of the
   * loop condition, and since each one takes at least a second, at most
   * `ceil(timeout / 1 s)` run.
   */
  lemma AttemptsBounds(host: string, timeout: int, env: Env)
    ensures Run(host, timeout, env).attempts >= 1 <==> env.lag < timeout
    ensures Run(host, timeout, env).attempts <= CeilDiv(timeout, Second)
  {
    var o := Run(host, timeout, env);
    if o.attempts > 0 {
      CheckTimeMonotone(env, 0, o.attempts - 1);
    }
  }

  /**
   * The probe returns when the clock reads `CheckTime(env, attempts)`: when no iteration
   * runs, the deadline had already passed at the first check of the loop condition and the
   * probe returns right there; otherwise before the deadline plus one iteration (the sleep
   * plus that iteration's lookup and GET).
   */
  lemma ReturnsWithinOneIteration(host: string, timeout: int, env: Env)
    ensures var o := Run(host, timeout, env);
      o.attempts == 0 ==> timeout <= env.lag && CheckTime(env, o.attempts) == env.lag
    ensures var o := Run(host, timeout, env);
      o.attempts > 0 ==> CheckTime(env, o.attempts) < timeout + Second + env.extra(o.attempts - 1)
  {
  }

  /**
   * An endpoint that always resolves and always answers the same status other than 200
   * makes the probe return that status as its error, once at least one iteration ran.
   */
  lemma PersistentStatusIsReported(host: string, timeout: int, env: Env, code: int)
    requires code != StatusOK
    requires forall k :: env.lookup(k).Resolved? && env.get(k) == Response(code)
    requires env.lag < timeout
    ensures Run(host, timeout, env).err == Some(StatusError(code))
  {
    AttemptsBounds(host, timeout, env);
    RunResult(host, timeout, env);
    var o := Run(host, timeout, env);
    assert !IterationReady(env, o.attempts - 1);
  }

  /**
   * The bound is reached: when no iteration succeeds and nothing takes longer than the
   * sleep, exactly `ceil(timeout / 1 s)` iterations run and the last one's error comes back.
   */
  lemma AttemptsWhenNeverReady(host: string, timeout: int, env: Env)
    requires env.lag == 0
    requires forall k :: env.extra(k) == 0
    requires forall k :: !IterationReady(env, k)
    ensures Run(host, timeout, env).attempts == CeilDiv(timeout, Second)
    ensures Run(host, timeout, env).err == LastError(host, env, CeilDiv(timeout, Second))
  {
    var o := Run(host, timeout, env);
    CheckTimeUniform(env, o.attempts);
    if o.attempts > 0 {
      CheckTimeUniform(env, o.attempts - 1);
    }
  }

  /** A name that never resolves within five seconds: five lookups, the last one's error. */
  lemma NeverResolvingScenario(host: string)
    ensures var env := Env(0, _ => 0, _ => LookupFailed("no such host"), _ => GetFailed("not reached"));
      Run(host, 5 * Second, env) == Outcome(Some(LookupError(host, "no such host")), 5)
  {
    var env := Env(0, _ => 0, _ => LookupFailed("no such host"), _ => GetFailed("not reached"));
    AttemptsWhenNeverReady(host, 5 * Second, env);
  }

  /**
   * Three failing lookups, then a 503 and then a 200 within the 120 seconds the test
   * allows: nil after exactly five iterations.
   */
  lemma PropagationScenario(host: string)
    ensures var env := Env(0, _ => 0,
                           i => if i < 3 then LookupFailed("no such host") else Resolved(["192.0.2.1"]),
                           i => if i == 3 then Response(503) else Response(StatusOK));
      Run(host, 120 * Second, env) == Outcome(None, 5)
  {
    var env := Env(0, _ => 0,
                   i => if i < 3 then LookupFailed("no such host") else Resolved(["192.0.2.1"]),
                   i => if i == 3 then Response(503) else Response(StatusOK));
    CheckTimeUniform(env, 4);
    assert IterationError(host, env, 4).None?;
    assert forall j :: 0 <= j < 4 ==> IterationError(host, env, j).Some?;
    RunMatches(host, 120 * Second, env, Outcome(None, 5));
  }

  /** An event is in the trace exactly when it belongs to an iteration that ran. */
  lemma {:induction false} TraceMembership(host: string, env: Env, n: nat, e: Event)
    ensures e in Trace(host, env, n) <==> e.iter < n && e in IterationEvents(host, env, e.iter)
  {
    if n > 0 {
      TraceMembership(host, env, n - 1, e);
      IterationEventsFacts(host, env, n - 1);
    }
  }

  /**
   * A GET is issued only in an iteration whose lookup succeeded, and then on
   * `http://<host>`; a failed lookup goes straight to the next iteration.
   */
  lemma {:induction false} GetOnlyAfterResolvedLookup(host: string, env: Env, n: nat, i: nat, url: string)
    ensures Get(i, url) in Trace(host, env, n) <==> i < n && env.lookup(i).Resolved? && url == Url(host)
  {
    TraceMembership(host, env, n, Get(i, url));
    IterationEventsFacts(host, env, i);
  }

  /** The body is closed exactly for the iterations whose GET received a response. */
  lemma {:induction false} BodyClosedOnEveryResponse(host: string, env: Env, n: nat, i: nat)
    ensures CloseBody(i) in Trace(host, env, n) <==>
              i < n && env.lookup(i).Resolved? && env.get(i).Response?
  {
    TraceMembership(host, env, n, CloseBody(i));
    IterationEventsFacts(host, env, i);
  }

  /**
   * The events of iteration `i` follow those of the iterations before it, and start with
   * the one-second sleep followed by the lookup at the DNS server.
   */
  lemma {:induction false} SleepThenLookup(host: string, env: Env, n: nat, i: nat)
    requires i < n
    ensures Trace(host, env, i) + IterationEvents(host, env, i) <= Trace(host, env, n)
    ensures Trace(host, env, n)[|Trace(host, env, i)|] == Sleep(i)
    ensures Trace(host, env, n)[|Trace(host, env, i)| + 1] == Lookup(i, host, DnsServer)
  {
    if i < n - 1 {
      SleepThenLookup(host, env, n - 1, i);
    }
    var pre := Trace(host, env, i) + IterationEvents(host, env, i);
    assert pre[|Trace(host, env, i)|] == Sleep(i);
    assert pre[|Trace(host, env, i)| + 1] == Lookup(i, host, DnsServer);
  }
}
