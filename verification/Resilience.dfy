/** Bounded retry with capped exponential backoff, and the stale-cache fallback behind it. */
module Resilience {
  import opened Options

  // ----- Failures -----

  datatype FailureClass = ConnectTimeout | ReadTimeout | ConnectionError | TransientHttp | ClientHttp | ContractError | Unknown

  /** What a fetch can raise, as far as classification looks at it. */
  datatype Fault = Timeout(connecting: bool) | Connection | HttpStatus(code: int) | Malformed | OtherApiError | Unrecognised

  const TRANSIENT_HTTP_STATUSES: set<int> := {408, 429, 500, 502, 503, 504}

  function Classify(f: Fault): FailureClass {
    match f
    case Timeout(connecting) => if connecting then ConnectTimeout else ReadTimeout
    case Connection => ConnectionError
    case HttpStatus(code) => if code in TRANSIENT_HTTP_STATUSES then TransientHttp else ClientHttp
    case Malformed => ContractError
    case OtherApiError => ContractError
    case Unrecognised => Unknown
  }

  predicate Retryable(c: FailureClass) {
    c in {ConnectTimeout, ReadTimeout, ConnectionError, TransientHttp}
  }

  datatype Reply<V> = Answer(value: V) | Raise(fault: Fault)

  /** The upstream, as an oracle: what attempt number `i` (from 1) answers, and how long it takes. */
  datatype Upstream<!V> = Upstream(reply: nat -> Reply<V>, takes: nat -> real)
  {
    ghost predicate Valid() { forall i :: takes(i) >= 0.0 }
  }

  // ----- Backoff -----

  datatype RetryPolicy = RetryPolicy(maxAttempts: int, baseDelay: real, maxDelay: real, multiplier: real)

  function Power(x: real, n: nat): real {
    if n == 0 then 1.0 else x * Power(x, n - 1)
  }

  /** The wait after attempt `attempt` fails. */
  function DelayFor(p: RetryPolicy, attempt: nat): real
    requires attempt >= 1
  {
    var raw := p.baseDelay * Power(p.multiplier, attempt - 1);
    if raw <= p.maxDelay then raw else p.maxDelay
  }

  lemma {:induction false} PowerGrows(x: real, n: nat)
    requires x >= 1.0
    ensures Power(x, n) >= 1.0 && Power(x, n + 1) >= Power(x, n)
  {
    if n > 0 { PowerGrows(x, n - 1); }
    var y := Power(x, n);
    assert x * y >= 1.0 * y by { Scale(x - 1.0, y); }
  }

  lemma Scale(a: real, b: real)
    requires a >= 0.0 && b >= 0.0
    ensures a * b >= 0.0
    ensures (a + 1.0) * b == a * b + b
  {
  }

  /** Delays never shrink and never pass the cap. */
  lemma DelaysGrow(p: RetryPolicy, attempt: nat)
    requires attempt >= 1 && p.baseDelay >= 0.0 && p.multiplier >= 1.0
    ensures DelayFor(p, attempt) <= DelayFor(p, attempt + 1) <= p.maxDelay
  {
    PowerGrows(p.multiplier, attempt - 1);
    Scale(p.baseDelay, Power(p.multiplier, attempt) - Power(p.multiplier, attempt - 1));
    assert p.baseDelay * (Power(p.multiplier, attempt) - Power(p.multiplier, attempt - 1))
        == p.baseDelay * Power(p.multiplier, attempt) - p.baseDelay * Power(p.multiplier, attempt - 1);
  }

  lemma TimesFactor(base: real, m: real, p: real)
    ensures base * (m * p) == m * (base * p)
  {
  }

  /** The schedule: the first delay is the base, each next one the last times the multiplier, all capped. */
  lemma DelaySchedule(p: RetryPolicy, attempt: nat)
    requires attempt >= 1
    ensures DelayFor(p, 1) == if p.baseDelay <= p.maxDelay then p.baseDelay else p.maxDelay
    ensures DelayFor(p, attempt) < p.maxDelay ==>
              DelayFor(p, attempt + 1) == if p.multiplier * DelayFor(p, attempt) <= p.maxDelay then p.multiplier * DelayFor(p, attempt) else p.maxDelay
  {
    assert Power(p.multiplier, 0) == 1.0;
    TimesFactor(p.baseDelay, p.multiplier, Power(p.multiplier, attempt - 1));
  }

  // ----- The retry loop -----

  /** The attempt is the last one: it answered, failed for good, or used up the budget. */
  predicate Settles<V>(p: RetryPolicy, up: Upstream<V>, attempt: nat) {
    || up.reply(attempt).Answer?
    || !Retryable(Classify(up.reply(attempt).fault))
    || attempt >= p.maxAttempts
  }

  /** Worth another try: a timeout, a broken connection, or one of six HTTP statuses. */
  predicate Transient(f: Fault) {
    || f.Timeout?
    || f.Connection?
    || (f.HttpStatus? && (f.code == 408 || f.code == 429 || f.code == 500 || f.code == 502 || f.code == 503 || f.code == 504))
  }

  lemma RetriedIsTransient(f: Fault)
    ensures Retryable(Classify(f)) <==> Transient(f)
  {
  }

  /** A finished call: how many attempts, the waits between them, and when it ended. */
  datatype Outcome = Outcome(attempts: nat, sleeps: seq<real>, now: real)

  /** A sleeper waits for a positive delay and returns at once otherwise. */
  function Waited(delay: real): real {
    if delay > 0.0 then delay else 0.0
  }

  /** Running from attempt `attempt` on, starting at time `now`. */
  function Attempts<V>(p: RetryPolicy, up: Upstream<V>, attempt: nat, sleeps: seq<real>, now: real): (o: Outcome)
    requires attempt >= 1
    decreases if attempt < p.maxAttempts then p.maxAttempts - attempt else 0
  {
    var after := now + up.takes(attempt);
    if Settles(p, up, attempt) then Outcome(attempt, sleeps, after)
    else
      var delay := DelayFor(p, attempt);
      Attempts(p, up, attempt + 1, sleeps + [delay], after + Waited(delay))
  }

  /** The loop itself. */
  method CallWithRetry<V>(p: RetryPolicy, up: Upstream<V>, start: real) returns (reply: Reply<V>, o: Outcome)
    ensures o == Attempts(p, up, 1, [], start) && reply == up.reply(o.attempts)
  {
    var attempt := 1;
    var sleeps := [];
    var now := start;
    while true
      invariant attempt >= 1
      invariant Attempts(p, up, 1, [], start) == Attempts(p, up, attempt, sleeps, now)
      decreases if attempt < p.maxAttempts then p.maxAttempts - attempt else 0
    {
      var answer := up.reply(attempt);
      now := now + up.takes(attempt);
      match answer {
        case Answer(_) => return answer, Outcome(attempt, sleeps, now);
        case Raise(fault) =>
          if !Retryable(Classify(fault)) || attempt >= p.maxAttempts { return answer, Outcome(attempt, sleeps, now); }
      }
      var delay := DelayFor(p, attempt);
      sleeps := sleeps + [delay];
      now := now + Waited(delay);
      attempt := attempt + 1;
    }
  }

  function Total(delays: seq<real>): real {
    if delays == [] then 0.0 else Total(delays[..|delays| - 1]) + Waited(delays[|delays| - 1])
  }

  function Budget(p: RetryPolicy): int {
    if p.maxAttempts > 1 then p.maxAttempts else 1
  }

  /** Attempts run from `attempt` to the first that settles; one delay precedes each attempt after the first. */
  ghost predicate RanTo<V>(p: RetryPolicy, up: Upstream<V>, o: Outcome) {
    && 1 <= o.attempts <= Budget(p)
    && Settles(p, up, o.attempts)
    && (forall i :: 1 <= i < o.attempts ==> !Settles(p, up, i))
    && |o.sleeps| == o.attempts - 1
    && (forall i :: 0 <= i < |o.sleeps| ==> o.sleeps[i] == DelayFor(p, i + 1))
  }

  lemma {:induction false} AttemptsRun<V>(p: RetryPolicy, up: Upstream<V>, attempt: nat, sleeps: seq<real>, now: real)
    requires 1 <= attempt <= Budget(p) && |sleeps| == attempt - 1 && up.Valid()
    requires forall i :: 1 <= i < attempt ==> !Settles(p, up, i)
    requires forall i :: 0 <= i < |sleeps| ==> sleeps[i] == DelayFor(p, i + 1)
    ensures var o := Attempts(p, up, attempt, sleeps, now);
            RanTo(p, up, o) && o.now >= now + Total(o.sleeps) - Total(sleeps)
    decreases Budget(p) - attempt
  {
    if !Settles(p, up, attempt) {
      var delay := DelayFor(p, attempt);
      var next := attempt + 1;
      assert (sleeps + [delay])[..|sleeps + [delay]| - 1] == sleeps;
      AttemptsRun(p, up, next, sleeps + [delay], now + up.takes(attempt) + Waited(delay));
    }
  }

  /** `n` capped delays, added up. */
  function Times(n: nat, cap: real): real {
    if n == 0 then 0.0 else Times(n - 1, cap) + cap
  }

  lemma {:induction false} TimesIs(n: nat, cap: real)
    ensures Times(n, cap) == n as real * cap
  {
    if n > 0 {
      TimesIs(n - 1, cap);
      OneMore((n - 1) as real, cap);
      assert n as real == (n - 1) as real + 1.0;
    }
  }

  lemma OneMore(k: real, cap: real)
    ensures (k + 1.0) * cap == k * cap + cap
  {
  }

  lemma {:induction false} TimesGrows(few: nat, many: nat, cap: real)
    requires few <= many && cap >= 0.0
    ensures Times(few, cap) <= Times(many, cap)
  {
    if few < many { TimesGrows(few, many - 1, cap); }
  }

  lemma {:induction false} TotalBounded(delays: seq<real>, cap: real)
    requires cap >= 0.0 && forall i :: 0 <= i < |delays| ==> delays[i] <= cap
    ensures Total(delays) <= Times(|delays|, cap)
  {
    if delays != [] { TotalBounded(delays[..|delays| - 1], cap); }
  }

  lemma DelaysCapped<V>(p: RetryPolicy, up: Upstream<V>, o: Outcome)
    requires RanTo(p, up, o)
    ensures |o.sleeps| <= Budget(p) - 1 && forall i :: 0 <= i < |o.sleeps| ==> o.sleeps[i] <= p.maxDelay
  {
  }

  /** A call makes at most its budget of attempts, and sleeps the schedule between them, in all at most one capped
      delay per retry the budget allows. */
  lemma RetriesAreBounded<V>(p: RetryPolicy, up: Upstream<V>, start: real)
    requires p.maxDelay >= 0.0 && up.Valid()
    ensures var o := Attempts(p, up, 1, [], start);
            && RanTo(p, up, o)
            && start + Total(o.sleeps) <= o.now
            && Total(o.sleeps) <= (Budget(p) - 1) as real * p.maxDelay
  {
    AttemptsRun(p, up, 1, [], start);
    SleepsCapped(p, up, Attempts(p, up, 1, [], start));
  }

  lemma SleepsCapped<V>(p: RetryPolicy, up: Upstream<V>, o: Outcome)
    requires p.maxDelay >= 0.0 && RanTo(p, up, o)
    ensures Total(o.sleeps) <= (Budget(p) - 1) as real * p.maxDelay
  {
    DelaysCapped(p, up, o);
    SleepsWithin(o.sleeps, Budget(p) - 1, p.maxDelay);
  }

  /** It stops at the first attempt that answers or fails in a way not worth another try, or at the end of its budget. */
  lemma RetriesOnlyTheTransient<V>(p: RetryPolicy, up: Upstream<V>, start: real)
    requires up.Valid()
    ensures var o := Attempts(p, up, 1, [], start);
            && 1 <= o.attempts && (o.attempts == 1 || o.attempts <= p.maxAttempts)
            && (forall i :: 1 <= i < o.attempts ==> up.reply(i).Raise? && Transient(up.reply(i).fault))
            && (up.reply(o.attempts).Raise? && Transient(up.reply(o.attempts).fault) ==> o.attempts >= p.maxAttempts)
  {
    AttemptsRun(p, up, 1, [], start);
    RanOverTransient(p, up, Attempts(p, up, 1, [], start));
  }

  lemma RanOverTransient<V>(p: RetryPolicy, up: Upstream<V>, o: Outcome)
    requires RanTo(p, up, o)
    ensures forall i :: 1 <= i < o.attempts ==> up.reply(i).Raise? && Transient(up.reply(i).fault)
    ensures up.reply(o.attempts).Raise? && Transient(up.reply(o.attempts).fault) ==> o.attempts >= p.maxAttempts
  {
    forall i | 1 <= i < o.attempts ensures up.reply(i).Raise? && Transient(up.reply(i).fault) {
      assert !Settles(p, up, i);
    }
  }

  lemma SleepsWithin(sleeps: seq<real>, retries: nat, cap: real)
    requires |sleeps| <= retries && cap >= 0.0 && forall i :: 0 <= i < |sleeps| ==> sleeps[i] <= cap
    ensures Total(sleeps) <= retries as real * cap
  {
    TotalBounded(sleeps, cap);
    TimesGrows(|sleeps|, retries, cap);
    TimesIs(retries, cap);
  }

  /** A call never ends before it starts. */
  lemma CallsTakeTime<V>(p: RetryPolicy, up: Upstream<V>, start: real)
    requires up.Valid()
    ensures Attempts(p, up, 1, [], start).now >= start
  {
    AttemptsRun(p, up, 1, [], start);
    NoNegativeWait(Attempts(p, up, 1, [], start).sleeps);
  }

  lemma {:induction false} NoNegativeWait(delays: seq<real>)
    ensures Total(delays) >= 0.0
  {
    if delays != [] { NoNegativeWait(delays[..|delays| - 1]); }
  }

  // ----- The cache behind it -----

  type Endpoint = string
  type Key = seq<int>

  datatype Entry<V> = Entry(value: V, fetchedAt: real)

  datatype Fetch<V> = Fetch(endpoint: Endpoint, key: Key, value: V, at: real)

  datatype Status = Fresh | StaleUsed | Unavailable | Invalid

  /** What the caller gets: a live value, a stale one with its age, the unavailable error, or the fault itself. */
  datatype Served<V> = Live(value: V) | Stale(value: V, age: real) | NoEvidence | Fails(fault: Fault)

  /** How long a value may serve as a stale fallback; an unlisted endpoint gets no window. */
  function Window(windows: map<Endpoint, real>, endpoint: Endpoint): real {
    if endpoint in windows then windows[endpoint] else 0.0
  }

  const DEFAULT_WINDOWS: map<Endpoint, real> := map[
    "current_season" := 3600.0, "seasons" := 3600.0, "round" := 3600.0, "rounds" := 3600.0,
    "matches" := 120.0, "player" := 86400.0, "player_stats" := 90.0, "season_players" := 0.0]

  type Cache<V> = map<(Endpoint, Key), Entry<V>>

  /** The decision once the retries are over, at time `now`. */
  function Serve<V>(cache: Cache<V>, window: real, endpoint: Endpoint, key: Key, reply: Reply<V>, now: real): Served<V> {
    match reply
    case Answer(value) => Live(value)
    case Raise(fault) =>
      if !Retryable(Classify(fault)) then Fails(fault)
      else if (endpoint, key) in cache && now - cache[(endpoint, key)].fetchedAt <= window then
        Stale(cache[(endpoint, key)].value, now - cache[(endpoint, key)].fetchedAt)
      else NoEvidence
  }

  function StatusOf<V>(s: Served<V>): Status {
    match s
    case Live(_) => Fresh
    case Stale(_, _) => StaleUsed
    case NoEvidence => Unavailable
    case Fails(fault) => if Classify(fault) == ContractError then Invalid else Unavailable
  }

  /** What a batch observes of a call: only a live value is fresh, and only a contract fault is invalid. */
  lemma StatusMeans<V>(s: Served<V>)
    ensures StatusOf(s) == Fresh <==> s.Live?
    ensures StatusOf(s) == StaleUsed <==> s.Stale?
    ensures StatusOf(s) == Invalid <==> s.Fails? && (s.fault.Malformed? || s.fault.OtherApiError?)
  {
  }

  /** The client: its cache, its clock, and the history of every live value it ever obtained. */
  datatype Client<V> = Client(cache: Cache<V>, now: real, log: seq<Fetch<V>>)

  datatype Call<!V> = Call(endpoint: Endpoint, key: Key, upstream: Upstream<V>, idle: real)

  function Finish<V>(c: Client<V>, p: RetryPolicy, call: Call<V>): Outcome {
    Attempts(p, call.upstream, 1, [], c.now + call.idle)
  }

  function Result<V>(c: Client<V>, p: RetryPolicy, windows: map<Endpoint, real>, call: Call<V>): Served<V> {
    var o := Finish(c, p, call);
    Serve(c.cache, Window(windows, call.endpoint), call.endpoint, call.key, call.upstream.reply(o.attempts), o.now)
  }

  /** The client after a call: only a live answer touches the cache. */
  function After<V>(c: Client<V>, p: RetryPolicy, call: Call<V>): Client<V> {
    var o := Finish(c, p, call);
    match call.upstream.reply(o.attempts)
    case Answer(value) => Client(c.cache[(call.endpoint, call.key) := Entry(value, o.now)], o.now,
                                 c.log + [Fetch(call.endpoint, call.key, value, o.now)])
    case Raise(_) => c.(now := o.now)
  }

  function History<V>(c: Client<V>, p: RetryPolicy, calls: seq<Call<V>>): Client<V> {
    if calls == [] then c else After(History(c, p, calls[..|calls| - 1]), p, calls[|calls| - 1])
  }

  /** Position `i` of the history is the latest live value for this endpoint and key. */
  predicate Latest<V>(log: seq<Fetch<V>>, i: int, endpoint: Endpoint, key: Key) {
    && 0 <= i < |log| && log[i].endpoint == endpoint && log[i].key == key
    && forall j :: i < j < |log| ==> !(log[j].endpoint == endpoint && log[j].key == key)
  }

  /** What the cache holds under a key is the latest live value obtained for it. */
  ghost predicate Backed<V>(c: Client<V>, endpoint: Endpoint, key: Key)
    requires (endpoint, key) in c.cache
  {
    exists i :: Latest(c.log, i, endpoint, key) && c.cache[(endpoint, key)] == Entry(c.log[i].value, c.log[i].at)
  }

  ghost predicate CacheOk<V>(c: Client<V>) {
    && (forall e, k :: (e, k) in c.cache ==> Backed(c, e, k))
    && (forall i :: 0 <= i < |c.log| ==> (c.log[i].endpoint, c.log[i].key) in c.cache && c.log[i].at <= c.now)
  }

  lemma LatestCarries<V>(log: seq<Fetch<V>>, f: Fetch<V>, i: int, endpoint: Endpoint, key: Key)
    requires Latest(log, i, endpoint, key) && (f.endpoint != endpoint || f.key != key)
    ensures Latest(log + [f], i, endpoint, key)
  {
  }

  lemma StoreKeeps<V>(c: Client<V>, f: Fetch<V>)
    requires CacheOk(c) && c.now <= f.at
    ensures CacheOk(Client(c.cache[(f.endpoint, f.key) := Entry(f.value, f.at)], f.at, c.log + [f]))
  {
    var next := Client(c.cache[(f.endpoint, f.key) := Entry(f.value, f.at)], f.at, c.log + [f]);
    forall e, k | (e, k) in next.cache ensures Backed(next, e, k) {
      if e == f.endpoint && k == f.key {
        assert Latest(next.log, |c.log|, e, k);
      } else {
        assert Backed(c, e, k);
        var i :| Latest(c.log, i, e, k) && c.cache[(e, k)] == Entry(c.log[i].value, c.log[i].at);
        LatestCarries(c.log, f, i, e, k);
      }
    }
  }

  lemma AfterKeeps<V>(c: Client<V>, p: RetryPolicy, call: Call<V>)
    requires CacheOk(c) && call.idle >= 0.0 && call.upstream.Valid()
    ensures CacheOk(After(c, p, call)) && After(c, p, call).now >= c.now
  {
    CallsTakeTime(p, call.upstream, c.now + call.idle);
    var o := Finish(c, p, call);
    match call.upstream.reply(o.attempts)
    case Answer(value) => StoreKeeps(c, Fetch(call.endpoint, call.key, value, o.now));
    case Raise(_) =>
      forall e, k | (e, k) in c.cache ensures Backed(c.(now := o.now), e, k) { assert Backed(c, e, k); }
  }

  lemma {:induction false} HistoryKeeps<V>(c: Client<V>, p: RetryPolicy, calls: seq<Call<V>>)
    requires CacheOk(c)
    requires forall i :: 0 <= i < |calls| ==> calls[i].idle >= 0.0 && calls[i].upstream.Valid()
    ensures CacheOk(History(c, p, calls)) && History(c, p, calls).now >= c.now
  {
    if calls != [] {
      var n := |calls| - 1;
      HistoryKeeps(c, p, calls[..n]);
      AfterKeeps(History(c, p, calls[..n]), p, calls[n]);
    }
  }

  /** A value that comes back was obtained live for exactly this endpoint and key. Live, it was obtained by this
      very call. Stale, it is the latest one ever obtained, this call's retries all failed in a retryable way, and
      its age when they were over is inside the window. Otherwise there is none inside the window, or the fault
      was not retryable and the cache was not consulted. */
  ghost predicate Genuine<V>(c: Client<V>, window: real, endpoint: Endpoint, key: Key, reply: Reply<V>, now: real, served: Served<V>) {
    match served
    case Live(v) => reply == Answer(v)
    case Stale(v, age) =>
      && reply.Raise? && Transient(reply.fault) && 0.0 <= age <= window
      && exists i :: Latest(c.log, i, endpoint, key) && c.log[i].value == v && age == now - c.log[i].at
    case NoEvidence =>
      && reply.Raise? && Transient(reply.fault)
      && forall i :: Latest(c.log, i, endpoint, key) ==> now - c.log[i].at > window
    case Fails(f) => reply == Raise(f) && !Transient(f)
  }

  lemma ServeIsGenuine<V>(c: Client<V>, window: real, endpoint: Endpoint, key: Key, reply: Reply<V>, now: real)
    requires CacheOk(c) && now >= c.now
    ensures Genuine(c, window, endpoint, key, reply, now, Serve(c.cache, window, endpoint, key, reply, now))
  {
    if (endpoint, key) in c.cache {
      assert Backed(c, endpoint, key);
      var i :| Latest(c.log, i, endpoint, key) && c.cache[(endpoint, key)] == Entry(c.log[i].value, c.log[i].at);
      forall j | Latest(c.log, j, endpoint, key) ensures j == i {}
    }
  }

  /** After any history of calls, what the next call serves is genuine. */
  lemma ServedIsGenuine<V>(start: real, p: RetryPolicy, windows: map<Endpoint, real>, calls: seq<Call<V>>, call: Call<V>)
    requires call.idle >= 0.0 && call.upstream.Valid()
    requires forall i :: 0 <= i < |calls| ==> calls[i].idle >= 0.0 && calls[i].upstream.Valid()
    ensures var c := History(Client(map[], start, []), p, calls);
            var o := Finish(c, p, call);
            var window := if call.endpoint in windows then windows[call.endpoint] else 0.0;
            Genuine(c, window, call.endpoint, call.key, call.upstream.reply(o.attempts), o.now, Result(c, p, windows, call))
  {
    var c := History(Client(map[], start, []), p, calls);
    HistoryKeeps(Client(map[], start, []), p, calls);
    CallsTakeTime(p, call.upstream, c.now + call.idle);
    var o := Finish(c, p, call);
    ServeIsGenuine(c, Window(windows, call.endpoint), call.endpoint, call.key, call.upstream.reply(o.attempts), o.now);
  }

  // ----- A window of zero -----

  /** Some retry the budget allows is preceded by a real wait. */
  predicate Waits(p: RetryPolicy) {
    exists i :: 1 <= i < Budget(p) && DelayFor(p, i) > 0.0
  }

  lemma {:induction false} TotalIncludes(delays: seq<real>, i: nat)
    requires i < |delays|
    ensures Total(delays) >= Waited(delays[i])
  {
    var n := |delays| - 1;
    NoNegativeWait(delays[..n]);
    if i < n { TotalIncludes(delays[..n], i); }
  }

  /** Failing in a retryable way means every retry of the budget was spent, and so every wait before one. */
  lemma ExhaustedTakesTime<V>(p: RetryPolicy, up: Upstream<V>, start: real)
    requires up.Valid() && Waits(p)
    requires var reply := up.reply(Attempts(p, up, 1, [], start).attempts); reply.Raise? && Retryable(Classify(reply.fault))
    ensures Attempts(p, up, 1, [], start).now > start
  {
    var o := Attempts(p, up, 1, [], start);
    AttemptsRun(p, up, 1, [], start);
    var i :| 1 <= i < Budget(p) && DelayFor(p, i) > 0.0;
    assert o.attempts == Budget(p);
    assert o.sleeps[i - 1] == DelayFor(p, i);
    TotalIncludes(o.sleeps, i - 1);
  }

  /** Under a policy that waits, an endpoint with a zero window is never served stale, whatever was called before. */
  lemma ZeroWindowNeverServesStale<V>(start: real, p: RetryPolicy, windows: map<Endpoint, real>, calls: seq<Call<V>>, call: Call<V>)
    requires Waits(p) && Window(windows, call.endpoint) <= 0.0 && call.idle >= 0.0 && call.upstream.Valid()
    requires forall i :: 0 <= i < |calls| ==> calls[i].idle >= 0.0 && calls[i].upstream.Valid()
    ensures !Result(History(Client(map[], start, []), p, calls), p, windows, call).Stale?
  {
    var c := History(Client(map[], start, []), p, calls);
    HistoryKeeps(Client(map[], start, []), p, calls);
    ServedIsGenuine(start, p, windows, calls, call);
    if Result(c, p, windows, call).Stale? {
      ExhaustedTakesTime(p, call.upstream, c.now + call.idle);
    }
  }

  /** An upstream that answers one value at once, or fails at once with a connection error. */
  function Instant<V>(reply: Reply<V>): Upstream<V> {
    Upstream((i: nat) => reply, (i: nat) => 0.0)
  }

  /** A policy that never waits ends a failing call at the instant it began. */
  lemma {:induction false} NoWaitNoTime<V>(p: RetryPolicy, attempt: nat, sleeps: seq<real>, now: real)
    requires !Waits(p) && 1 <= attempt <= Budget(p)
    ensures Attempts<V>(p, Instant(Raise(Connection)), attempt, sleeps, now).now == now
    decreases Budget(p) - attempt
  {
    var up: Upstream<V> := Instant(Raise(Connection));
    if !Settles(p, up, attempt) {
      assert Waited(DelayFor(p, attempt)) == 0.0;
      NoWaitNoTime<V>(p, attempt + 1, sleeps + [DelayFor(p, attempt)], now);
    }
  }

  /** ... so there one fetch and one immediate failure do get a stale value through a zero window. */
  lemma WithoutWaitsZeroWindowServesStale<V>(start: real, p: RetryPolicy, endpoint: Endpoint, key: Key, value: V)
    requires !Waits(p)
    ensures var fetch := Call(endpoint, key, Instant(Answer(value)), 0.0);
            var failing := Call(endpoint, key, Instant(Raise(Connection)), 0.0);
            fetch.upstream.Valid() && failing.upstream.Valid()
            && Result(History(Client(map[], start, []), p, [fetch]), p, map[endpoint := 0.0], failing) == Stale(value, 0.0)
  {
    var fetch := Call(endpoint, key, Instant(Answer(value)), 0.0);
    var failing: Call<V> := Call(endpoint, key, Instant(Raise(Connection)), 0.0);
    var first: Client<V> := Client(map[], start, []);
    assert [fetch][..0] == [] && History(first, p, [fetch]) == After(first, p, fetch);
    var c := After(first, p, fetch);
    assert c.now == start && c.cache[(endpoint, key)] == Entry(value, start);
    NoWaitNoTime<V>(p, 1, [], c.now + failing.idle);
    var o := Finish(c, p, failing);
    assert failing.upstream.reply(o.attempts) == Raise(Connection);
  }

  /** The policy the client ships with, and what the window of the season player pool is under it. */
  const DEFAULT_POLICY := RetryPolicy(3, 0.2, 2.0, 2.0)

  lemma DefaultPolicyWaits()
    ensures Waits(DEFAULT_POLICY) && Window(DEFAULT_WINDOWS, "season_players") == 0.0
  {
    assert DelayFor(DEFAULT_POLICY, 1) == 0.2 by { DelaySchedule(DEFAULT_POLICY, 1); }
  }
}
