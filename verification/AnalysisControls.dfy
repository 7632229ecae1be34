/** The controls in front of an AI provider: circuit breaker, fixed-window rate limit and
    monthly token budget, kept in a key-value store with expiring keys. */
module AnalysisControls {
  import opened Prelude

  const MINUTE_MS: Millis := 60_000
  const RATE_TTL_SECONDS := 120
  const FAILURE_TTL_SECONDS := 60
  const CIRCUIT_TTL_SECONDS := 60

  datatype Key =
    | RateKey(tenantId: nat, provider: string, minute: int)
    | FailuresKey(provider: string)
    | CircuitKey(provider: string)

  datatype Entry = Entry(value: int, expiresAt: Option<Millis>)

  type Store = map<Key, Entry>

  /** An expired key is absent. */
  predicate Present(store: Store, key: Key, now: Millis) {
    key in store && (store[key].expiresAt.Some? ==> now < store[key].expiresAt.value)
  }

  /** INCR starts an absent key at 1 without an expiry. */
  function Incr(store: Store, key: Key, now: Millis): Store {
    store[key := if Present(store, key, now) then store[key].(value := store[key].value + 1) else Entry(1, None)]
  }

  function Expire(store: Store, key: Key, seconds: int, now: Millis): Store {
    if Present(store, key, now) then store[key := store[key].(expiresAt := Some(now + seconds * 1_000))] else store
  }

  function SetEx(store: Store, key: Key, value: int, seconds: int, now: Millis): Store {
    store[key := Entry(value, Some(now + seconds * 1_000))]
  }

  datatype Options = Options(requestsPerMinute: nat, failureThreshold: nat)

  datatype Verdict = Admitted | CircuitOpen | RateLimited | BudgetExceeded

  /** The part of `enforce` before the budget is read. */
  function EnforceCounters(store: Store, options: Options, tenantId: nat, provider: string, now: Millis): (Store, Verdict) {
    if Present(store, CircuitKey(provider), now) then (store, CircuitOpen)
    else
      var key := RateKey(tenantId, provider, now / MINUTE_MS);
      var counted := Incr(store, key, now);
      var count := counted[key].value;
      var kept := if count == 1 then Expire(counted, key, RATE_TTL_SECONDS, now) else counted;
      (kept, if count > options.requestsPerMinute then RateLimited else Admitted)
  }

  function RecordFailure(store: Store, options: Options, provider: string, now: Millis): Store {
    var key := FailuresKey(provider);
    var counted := Incr(store, key, now);
    var failures := counted[key].value;
    var kept := if failures == 1 then Expire(counted, key, FAILURE_TTL_SECONDS, now) else counted;
    if failures >= options.failureThreshold then SetEx(kept, CircuitKey(provider), 1, CIRCUIT_TTL_SECONDS, now) else kept
  }

  class AnalysisControls {
    var store: Store
    const options: Options
    ghost var calls: Calls

    /** The store is what the calls made of it, in the order of their clocks. */
    ghost predicate Valid()
      reads this
    {
      InOrder(calls) && store == StoreAfter(calls, options)
    }

    ghost predicate MayAct(now: Millis)
      reads this
    {
      Valid() && (calls.Then? ==> calls.event.at <= now)
    }

    constructor (options: Options)
      ensures Valid() && calls == Start && this.options == options
    {
      this.options := options;
      store, calls := map[], Start;
    }

    /** `consumed` is what the token aggregate of the current month returns when it is
        asked. */
    method Enforce(tenantId: nat, provider: string, monthlyTokenBudget: int, consumed: int, now: Millis) returns (verdict: Verdict)
      requires MayAct(now)
      modifies this
      ensures Valid() && calls == Then(old(calls), Call.Enforce(now, tenantId, provider))
      ensures store == EnforceCounters(old(store), options, tenantId, provider, now).0
      ensures var open := Present(old(store), CircuitKey(provider), now);
              var full := CountedCalls(old(calls), options, tenantId, provider, now / 60_000) >= options.requestsPerMinute;
              verdict == if open then CircuitOpen else if full then RateLimited
                         else if consumed >= monthlyTokenBudget then BudgetExceeded else Admitted
      ensures FailuresAfter(old(calls), provider, now - 120_000) < options.failureThreshold ==> verdict != CircuitOpen
    {
      VerdictByCalls(calls, options, tenantId, provider, now);
      FewFailuresNeverOpen(calls, options, tenantId, provider, now);
      calls := Then(calls, Call.Enforce(now, tenantId, provider));
      if Present(store, CircuitKey(provider), now) {
        return CircuitOpen;
      }
      var key := RateKey(tenantId, provider, now / MINUTE_MS);
      store := Incr(store, key, now);
      var count := store[key].value;
      if count == 1 {
        store := Expire(store, key, RATE_TTL_SECONDS, now);
      }
      if count > options.requestsPerMinute {
        return RateLimited;
      }
      if consumed >= monthlyTokenBudget {
        return BudgetExceeded;
      }
      return Admitted;
    }

    method RecordProviderFailure(provider: string, now: Millis)
      requires MayAct(now)
      modifies this
      ensures Valid() && calls == Then(old(calls), Failure(now, provider))
      ensures store == RecordFailure(old(store), options, provider, now)
    {
      calls := Then(calls, Failure(now, provider));
      var key := FailuresKey(provider);
      store := Incr(store, key, now);
      var failures := store[key].value;
      if failures == 1 {
        store := Expire(store, key, FAILURE_TTL_SECONDS, now);
      }
      if failures >= options.failureThreshold {
        store := SetEx(store, CircuitKey(provider), 1, CIRCUIT_TTL_SECONDS, now);
      }
    }
  }

  // ------------------------------------------------------------------- runs

  datatype Call = Enforce(at: Millis, tenantId: nat, provider: string) | Failure(at: Millis, provider: string)

  type Calls = History<Call>

  function StoreAfter(calls: Calls, options: Options): Store {
    match calls
    case Start => map[]
    case Then(past, Enforce(at, tenantId, provider)) => EnforceCounters(StoreAfter(past, options), options, tenantId, provider, at).0
    case Then(past, Failure(at, provider)) => RecordFailure(StoreAfter(past, options), options, provider, at)
  }

  /** Clocks do not run backwards. */
  predicate InOrder(calls: Calls) {
    calls.Then? ==> InOrder(calls.past) && (calls.past.Then? ==> calls.past.event.at <= calls.event.at)
  }

  // -------------------------------------------------------------- rate limit

  /** The verdict on the last call, up to the budget. */
  function VerdictOn(calls: Calls, options: Options): Verdict
    requires calls.Then? && calls.event.Enforce?
  {
    EnforceCounters(StoreAfter(calls.past, options), options, calls.event.tenantId, calls.event.provider, calls.event.at).1
  }

  predicate IsFor(call: Call, tenantId: nat, provider: string) {
    call.Enforce? && call.tenantId == tenantId && call.provider == provider
  }

  /** How many calls of a minute got past the circuit breaker and were counted. */
  function CountedCalls(calls: Calls, options: Options, tenantId: nat, provider: string, minute: int): nat {
    if calls.Start? then 0
    else
      CountedCalls(calls.past, options, tenantId, provider, minute)
      + if IsFor(calls.event, tenantId, provider) && calls.event.at / MINUTE_MS == minute && !VerdictOn(calls, options).CircuitOpen? then 1 else 0
  }

  /** How many calls in `[from, until)` the limiter let through. */
  function AdmittedBetween(calls: Calls, options: Options, tenantId: nat, provider: string, from: Millis, until: Millis): nat {
    if calls.Start? then 0
    else
      AdmittedBetween(calls.past, options, tenantId, provider, from, until)
      + if IsFor(calls.event, tenantId, provider) && from <= calls.event.at < until && VerdictOn(calls, options).Admitted? then 1 else 0
  }

  /** A bucket's counter holds the number of counted calls, and expires only after the
      minute it belongs to. */
  lemma {:induction false} BucketCountsItsMinute(calls: Calls, options: Options, tenantId: nat, provider: string, minute: int)
    ensures var key, n := RateKey(tenantId, provider, minute), CountedCalls(calls, options, tenantId, provider, minute);
            var store := StoreAfter(calls, options);
            && (key in store <==> n > 0)
            && (n > 0 ==> store[key].value == n && store[key].expiresAt.Some? && store[key].expiresAt.value >= (minute + 2) * MINUTE_MS)
  {
    if calls.Then? {
      BucketCountsItsMinute(calls.past, options, tenantId, provider, minute);
    }
  }

  /** In every minute exactly the first `requestsPerMinute` counted calls are admitted. */
  lemma {:induction false} LimitPerMinute(calls: Calls, options: Options, tenantId: nat, provider: string, minute: int)
    ensures var n := CountedCalls(calls, options, tenantId, provider, minute);
            AdmittedBetween(calls, options, tenantId, provider, minute * MINUTE_MS, (minute + 1) * MINUTE_MS)
            == if n <= options.requestsPerMinute then n else options.requestsPerMinute
  {
    if calls.Then? {
      LimitPerMinute(calls.past, options, tenantId, provider, minute);
      BucketCountsItsMinute(calls.past, options, tenantId, provider, minute);
    }
  }

  lemma {:induction false} SplitInterval(calls: Calls, options: Options, tenantId: nat, provider: string, from: Millis, mid: Millis, until: Millis)
    requires from <= mid <= until
    ensures AdmittedBetween(calls, options, tenantId, provider, from, until)
            == AdmittedBetween(calls, options, tenantId, provider, from, mid) + AdmittedBetween(calls, options, tenantId, provider, mid, until)
  {
    if calls.Then? {
      SplitInterval(calls.past, options, tenantId, provider, from, mid, until);
    }
  }

  /** Any 60 seconds meet at most two minutes, so at most twice the limit is admitted. */
  lemma LimitPerSlidingMinute(calls: Calls, options: Options, tenantId: nat, provider: string, from: Millis, until: Millis)
    requires from <= until <= from + MINUTE_MS
    ensures AdmittedBetween(calls, options, tenantId, provider, from, until) <= 2 * options.requestsPerMinute
  {
    var m := from / MINUTE_MS;
    var left, mid, right := m * MINUTE_MS, (m + 1) * MINUTE_MS, (m + 2) * MINUTE_MS;
    SplitInterval(calls, options, tenantId, provider, left, from, right);
    SplitInterval(calls, options, tenantId, provider, from, until, right);
    SplitInterval(calls, options, tenantId, provider, left, mid, right);
    LimitPerMinute(calls, options, tenantId, provider, m);
    LimitPerMinute(calls, options, tenantId, provider, m + 1);
  }

  // --------------------------------------------------------- circuit breaker

  predicate IsFailureOf(call: Call, provider: string) {
    call.Failure? && call.provider == provider
  }

  /** How many failures of the provider were recorded after `since`. */
  function FailuresAfter(calls: Calls, provider: string, since: Millis): nat {
    if calls.Start? then 0
    else FailuresAfter(calls.past, provider, since) + if IsFailureOf(calls.event, provider) && calls.event.at > since then 1 else 0
  }

  /** The time of the last recorded failure. */
  function LastFailure(calls: Calls, provider: string): Option<Millis> {
    if calls.Start? then None
    else if IsFailureOf(calls.event, provider) then Some(calls.event.at)
    else LastFailure(calls.past, provider)
  }

  lemma {:induction false} NoFailureAfterLast(calls: Calls, provider: string, since: Millis)
    requires InOrder(calls)
    requires LastFailure(calls, provider).Some? ==> LastFailure(calls, provider).value <= since
    ensures FailuresAfter(calls, provider, since) == 0
    ensures calls.Then? && LastFailure(calls, provider).Some? ==> LastFailure(calls, provider).value <= calls.event.at
  {
    if calls.Then? {
      if LastFailure(calls.past, provider).Some? {
        NoFailureAfterLast(calls.past, provider, if LastFailure(calls.past, provider).value <= since then since else LastFailure(calls.past, provider).value);
      } else {
        NoFailureAfterLast(calls.past, provider, since);
      }
    }
  }

  lemma {:induction false} FewerAfterLater(calls: Calls, provider: string, since: Millis, later: Millis)
    requires since <= later
    ensures FailuresAfter(calls, provider, later) <= FailuresAfter(calls, provider, since)
  {
    if calls.Then? {
      FewerAfterLater(calls.past, provider, since, later);
    }
  }

  /** When the failure counter started. */
  function WindowStart(store: Store, provider: string): Millis
    requires FailuresKey(provider) in store && store[FailuresKey(provider)].expiresAt.Some?
  {
    store[FailuresKey(provider)].expiresAt.value - FAILURE_TTL_SECONDS * 1_000
  }

  /** The failure counter holds the failures of a window of 60 seconds, the first of which
      starts it. */
  predicate CounterIsWindow(calls: Calls, options: Options, provider: string) {
    var key, store, last := FailuresKey(provider), StoreAfter(calls, options), LastFailure(calls, provider);
    && (key in store <==> last.Some?)
    && (last.Some? ==>
          && calls.Then?
          && store[key].expiresAt.Some?
          && var start := WindowStart(store, provider);
             && start <= last.value < start + MINUTE_MS
             && last.value <= calls.event.at
             && FailuresAfter(calls, provider, start - 1) == store[key].value
             && FailuresAfter(calls, provider, start) < store[key].value)
  }

  lemma {:induction false} FailureWindow(calls: Calls, options: Options, provider: string)
    requires InOrder(calls)
    ensures CounterIsWindow(calls, options, provider)
  {
    if calls.Then? {
      FailureWindow(calls.past, options, provider);
      if IsFailureOf(calls.event, provider) && !Present(StoreAfter(calls.past, options), FailuresKey(provider), calls.event.at) {
        NoFailureAfterLast(calls.past, provider, calls.event.at - 1);
        NoFailureAfterLast(calls.past, provider, calls.event.at);
      }
    }
  }

  /** The breaker is open at `now` only because of a failure less than 60 seconds earlier,
      at which at least `failureThreshold` failures had been recorded within 60 seconds. */
  lemma {:induction false} OpenOnlyAfterFailures(calls: Calls, options: Options, provider: string, now: Millis) returns (opening: Calls)
    requires InOrder(calls) && Present(StoreAfter(calls, options), CircuitKey(provider), now)
    ensures Within(opening, calls) && opening.Then? && IsFailureOf(opening.event, provider)
    ensures now < opening.event.at + CIRCUIT_TTL_SECONDS * 1_000
    ensures FailuresAfter(opening, provider, opening.event.at - MINUTE_MS) >= options.failureThreshold
    decreases calls
  {
    FailureWindow(calls.past, options, provider);
    FailureWindow(calls, options, provider);
    var store := StoreAfter(calls, options);
    if IsFailureOf(calls.event, provider) && store[FailuresKey(provider)].value >= options.failureThreshold {
      opening := calls;
      FewerAfterLater(calls, provider, calls.event.at - MINUTE_MS, WindowStart(store, provider) - 1);
    } else {
      opening := OpenOnlyAfterFailures(calls.past, options, provider, now);
    }
  }

  /** So it is closed again 60 seconds after the last recorded failure at the latest. */
  lemma ClosedAMinuteAfterLastFailure(calls: Calls, options: Options, provider: string, now: Millis)
    requires InOrder(calls)
    requires LastFailure(calls, provider).Some? ==> LastFailure(calls, provider).value + MINUTE_MS <= now
    ensures !Present(StoreAfter(calls, options), CircuitKey(provider), now)
  {
    if Present(StoreAfter(calls, options), CircuitKey(provider), now) {
      var opening := OpenOnlyAfterFailures(calls, options, provider, now);
      LastIsLatest(calls, opening, provider);
      assert false;
    }
  }

  lemma {:induction false} LastIsLatest(calls: Calls, h: Calls, provider: string)
    requires InOrder(calls) && Within(h, calls) && h.Then? && IsFailureOf(h.event, provider)
    ensures LastFailure(calls, provider).Some? && h.event.at <= LastFailure(calls, provider).value <= calls.event.at
    decreases calls
  {
    if h != calls {
      LastIsLatest(calls.past, h, provider);
    }
  }

  /** While it is open no call is admitted and no counter moves. */
  lemma NoCallPassesWhileOpen(calls: Calls, options: Options, tenantId: nat, provider: string, now: Millis)
    requires Present(StoreAfter(calls, options), CircuitKey(provider), now)
    ensures VerdictOn(Then(calls, Enforce(now, tenantId, provider)), options) == CircuitOpen
    ensures StoreAfter(Then(calls, Enforce(now, tenantId, provider)), options) == StoreAfter(calls, options)
  {
  }

  /** The verdict on a call, by the calls before it: the breaker alone answers first, then
      the number of calls of the same minute that got past it. */
  lemma VerdictByCalls(calls: Calls, options: Options, tenantId: nat, provider: string, now: Millis)
    ensures var verdict := VerdictOn(Then(calls, Enforce(now, tenantId, provider)), options);
            var open := Present(StoreAfter(calls, options), CircuitKey(provider), now);
            var counted := CountedCalls(calls, options, tenantId, provider, now / 60_000);
            && (verdict == CircuitOpen <==> open)
            && (verdict == RateLimited <==> !open && counted >= options.requestsPerMinute)
            && (verdict == Admitted <==> !open && counted < options.requestsPerMinute)
  {
    BucketCountsItsMinute(calls, options, tenantId, provider, now / MINUTE_MS);
    hide StoreAfter, CountedCalls;
  }

  /** A call is answered "circuit open" only if as many failures as the threshold lie in the
      last two minutes, and the last of them in the last one. */
  lemma FewFailuresNeverOpen(calls: Calls, options: Options, tenantId: nat, provider: string, now: Millis)
    requires InOrder(calls)
    ensures VerdictOn(Then(calls, Enforce(now, tenantId, provider)), options) == CircuitOpen ==>
              && FailuresAfter(calls, provider, now - 120_000) >= options.failureThreshold
              && LastFailure(calls, provider).Some? && now < LastFailure(calls, provider).value + 60_000
  {
    VerdictByCalls(calls, options, tenantId, provider, now);
    if Present(StoreAfter(calls, options), CircuitKey(provider), now) {
      var opening := OpenOnlyAfterFailures(calls, options, provider, now);
      LastIsLatest(calls, opening, provider);
      FewerAfterLater(opening, provider, now - 2 * MINUTE_MS, opening.event.at - MINUTE_MS);
      MoreWithTime(opening, calls, provider, now - 2 * MINUTE_MS);
    }
    hide StoreAfter, VerdictOn, FailuresAfter, LastFailure;
  }

  lemma {:induction false} MoreWithTime(h: Calls, calls: Calls, provider: string, since: Millis)
    requires Within(h, calls)
    ensures FailuresAfter(h, provider, since) <= FailuresAfter(calls, provider, since)
    decreases calls
  {
    if h != calls {
      MoreWithTime(h, calls.past, provider, since);
    }
  }

  // ------------------------------------------- how many failures open it for sure

  /** A full counter keeps the breaker open for a minute after the last failure. */
  predicate FullCounterOpens(calls: Calls, options: Options, provider: string) {
    var key, circuit, store := FailuresKey(provider), CircuitKey(provider), StoreAfter(calls, options);
    key in store && store[key].value >= options.failureThreshold && LastFailure(calls, provider).Some? ==>
      circuit in store && store[circuit].expiresAt == Some(LastFailure(calls, provider).value + MINUTE_MS)
  }

  lemma {:induction false} FullCounterKeepsOpen(calls: Calls, options: Options, provider: string)
    requires InOrder(calls)
    ensures FullCounterOpens(calls, options, provider)
  {
    if calls.Then? {
      FullCounterKeepsOpen(calls.past, options, provider);
      FailureWindow(calls.past, options, provider);
    }
  }

  /** The failures after `since` that the current window counts. */
  function CurrentPart(calls: Calls, options: Options, provider: string, since: Millis): nat
    requires InOrder(calls)
  {
    FailureWindow(calls, options, provider);
    if LastFailure(calls, provider).None? then 0
    else
      var start := WindowStart(StoreAfter(calls, options), provider);
      FailuresAfter(calls, provider, if since < start then start - 1 else since)
  }

  /** While the breaker is closed the current window contributes fewer failures than the
      threshold. */
  lemma CurrentPartBelowThreshold(calls: Calls, options: Options, provider: string, since: Millis)
    requires InOrder(calls) && options.failureThreshold >= 1
    requires !Present(StoreAfter(calls, options), CircuitKey(provider), since + MINUTE_MS)
    ensures CurrentPart(calls, options, provider, since) < options.failureThreshold
  {
    FailureWindow(calls, options, provider);
    FullCounterKeepsOpen(calls, options, provider);
    if LastFailure(calls, provider).Some? {
      var store := StoreAfter(calls, options);
      var start := WindowStart(store, provider);
      FewerAfterLater(calls, provider, start - 1, if since < start then start - 1 else since);
      if store[FailuresKey(provider)].value >= options.failureThreshold {
        NoFailureAfterLast(calls, provider, since);
      }
    }
  }

  /** So do the windows before it: only the previous one reaches into the last minute, and
      the failure that started it does not. */
  lemma {:induction false} EarlierPartBelowThreshold(calls: Calls, options: Options, provider: string, since: Millis)
    requires InOrder(calls) && options.failureThreshold >= 1
    requires calls.Then? ==> calls.event.at - MINUTE_MS <= since
    requires !Present(StoreAfter(calls, options), CircuitKey(provider), since + MINUTE_MS)
    ensures FailuresAfter(calls, provider, since) <= CurrentPart(calls, options, provider, since)
                                                     + if options.failureThreshold == 1 then 0 else options.failureThreshold - 2
  {
    if calls.Then? {
      FailureWindow(calls, options, provider);
      FailureWindow(calls.past, options, provider);
      FullCounterKeepsOpen(calls, options, provider);
      var before, at := StoreAfter(calls.past, options), calls.event.at;
      if IsFailureOf(calls.event, provider) {
        if at <= since {
          NoFailureAfterLast(calls, provider, since);
        } else if Present(before, FailuresKey(provider), at) {
          EarlierPartBelowThreshold(calls.past, options, provider, since);
        } else if LastFailure(calls.past, provider).Some? {
          var start := WindowStart(before, provider);
          FewerAfterLater(calls.past, provider, start, since);
          FullCounterKeepsOpen(calls.past, options, provider);
          if before[FailuresKey(provider)].value >= options.failureThreshold {
            NoFailureAfterLast(calls.past, provider, since);
          }
        } else {
          NoFailureAfterLast(calls.past, provider, since);
        }
      } else {
        EarlierPartBelowThreshold(calls.past, options, provider, since);
      }
    }
  }

  /** The number of failures within a minute that opens the breaker wherever the windows
      fall. */
  function EnoughFailures(threshold: nat): nat {
    if threshold <= 1 then 1 else 2 * threshold - 2
  }

  lemma EnoughFailuresOpen(calls: Calls, options: Options, provider: string, now: Millis)
    requires InOrder(calls) && options.failureThreshold >= 1 && (calls.Then? ==> calls.event.at <= now)
    requires FailuresAfter(calls, provider, now - MINUTE_MS) >= EnoughFailures(options.failureThreshold)
    ensures Present(StoreAfter(calls, options), CircuitKey(provider), now)
  {
    if !Present(StoreAfter(calls, options), CircuitKey(provider), now) {
      CurrentPartBelowThreshold(calls, options, provider, now - MINUTE_MS);
      EarlierPartBelowThreshold(calls, options, provider, now - MINUTE_MS);
      assert false;
    }
  }

  /** `n` more failures at one time. */
  function Repeated(calls: Calls, provider: string, n: nat, at: Millis): Calls {
    if n == 0 then calls else Then(Repeated(calls, provider, n - 1, at), Failure(at, provider))
  }

  /** What they do to a counter that lives and stays below the threshold, and how a later
      observer counts them. */
  lemma {:induction false} RepeatedCounts(calls: Calls, options: Options, provider: string, n: nat, at: Millis, since: Millis, count: nat, until: Millis)
    requires InOrder(calls) && (calls.Then? ==> calls.event.at <= at)
    requires StoreAfter(calls, options) == map[FailuresKey(provider) := Entry(count, Some(until))]
    requires at < until && 1 <= count && count + n < options.failureThreshold
    ensures var longer := Repeated(calls, provider, n, at);
            && InOrder(longer) && (longer.Then? ==> longer.event.at <= at)
            && StoreAfter(longer, options) == map[FailuresKey(provider) := Entry(count + n, Some(until))]
            && FailuresAfter(longer, provider, since) == FailuresAfter(calls, provider, since) + if at > since then n else 0
  {
    if n > 0 {
      RepeatedCounts(calls, options, provider, n - 1, at, since, count, until);
      var before := Repeated(calls, provider, n - 1, at);
      assert StoreAfter(Then(before, Failure(at, provider)), options) == map[FailuresKey(provider) := Entry(count + n, Some(until))];
    }
  }

  /** A failure starts a new window when the last one has expired. */
  lemma WindowStarts(calls: Calls, options: Options, provider: string, at: Millis)
    requires InOrder(calls) && (calls.Then? ==> calls.event.at <= at) && options.failureThreshold >= 2
    requires var store := StoreAfter(calls, options);
             && (forall key :: key in store ==> key == FailuresKey(provider))
             && !Present(store, FailuresKey(provider), at)
    ensures var longer := Then(calls, Failure(at, provider));
            InOrder(longer) && StoreAfter(longer, options) == map[FailuresKey(provider) := Entry(1, Some(at + MINUTE_MS))]
  {
    var longer := Then(calls, Failure(at, provider));
    assert StoreAfter(longer, options).Keys == {FailuresKey(provider)};
  }

  /** One fewer is not enough, for any threshold: the counter restarts within the minute.
      One failure begins a window, all but two of those that would fill it come late in it,
      and as many as the next one takes come just after its end. */
  lemma OneFewerMayNotOpen(options: Options, provider: string) returns (calls: Calls, now: Millis)
    requires options.failureThreshold >= 1
    ensures InOrder(calls) && (calls.Then? ==> calls.event.at <= now)
    ensures FailuresAfter(calls, provider, now - MINUTE_MS) == EnoughFailures(options.failureThreshold) - 1
    ensures !Present(StoreAfter(calls, options), CircuitKey(provider), now)
  {
    now := 62_000;
    var k := options.failureThreshold;
    if k == 1 {
      calls := Start;
      return;
    }
    var first := Then(Start, Failure(0, provider));
    WindowStarts(Start, options, provider, 0);
    var late := Repeated(first, provider, k - 2, 50_000);
    RepeatedCounts(first, options, provider, k - 2, 50_000, now - MINUTE_MS, 1, 60_000);
    var next := Then(late, Failure(now, provider));
    WindowStarts(late, options, provider, now);
    calls := Repeated(next, provider, k - 2, now);
    RepeatedCounts(next, options, provider, k - 2, now, now - MINUTE_MS, 1, now + MINUTE_MS);
    assert FailuresAfter(first, provider, now - MINUTE_MS) == 0;
  }

  /** Whatever else was called, `n` failures within the last minute leave the breaker open. */
  ghost predicate AlwaysOpens(options: Options, provider: string, n: nat) {
    forall calls: Calls, now ::
      InOrder(calls) && (calls.Then? ==> calls.event.at <= now) && FailuresAfter(calls, provider, now - MINUTE_MS) >= n
      ==> Present(StoreAfter(calls, options), CircuitKey(provider), now)
  }

  lemma OpensIff(options: Options, provider: string, n: nat)
    requires options.failureThreshold >= 1
    ensures AlwaysOpens(options, provider, n) <==> n >= EnoughFailures(options.failureThreshold)
  {
    if n >= EnoughFailures(options.failureThreshold) {
      forall calls: Calls, now | InOrder(calls) && (calls.Then? ==> calls.event.at <= now)
                                 && FailuresAfter(calls, provider, now - MINUTE_MS) >= n
        ensures Present(StoreAfter(calls, options), CircuitKey(provider), now) {
        EnoughFailuresOpen(calls, options, provider, now);
      }
    } else {
      var calls, now := OneFewerMayNotOpen(options, provider);
      assert FailuresAfter(calls, provider, now - MINUTE_MS) >= n;
    }
  }
}
