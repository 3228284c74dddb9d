/** The fixed-window rate limiter: every call increments a counter, and the call that got 1 sets its expiry by a second
    command. Time is in whole seconds. */
module RateLimiter {
  import opened Wire

  type Time = nat

  type Key = Text

  datatype Counter = Counter(count: int, expiresAt: Option<Time>)

  datatype Config = Config(capacity: nat, window: nat)

  datatype RateLimitResult = RateLimitResult(allowed: bool, remaining: nat, retryAfter: nat)

  const UNLIMITED: nat := 0xFFFF_FFFF

  function Max(a: int, b: int): int {
    if a >= b then a else b
  }

  function Min(a: nat, b: nat): nat {
    if a <= b then a else b
  }

  /** `slack` is 0 for a store that drops a key at its expiry and 1 for one that still has it at that second. */
  predicate Alive(c: Counter, now: Time, slack: nat) {
    c.expiresAt.Some? ==> now < c.expiresAt.value + slack
  }

  function Live(c: Option<Counter>, now: Time, slack: nat): Option<Counter> {
    if c.Some? && Alive(c.value, now, slack) then c else None
  }

  function Incremented(c: Option<Counter>, now: Time, slack: nat): Counter {
    match Live(c, now, slack)
    case Some(live) => Counter(live.count + 1, live.expiresAt)
    case None => Counter(1, None)
  }

  function Expiring(c: Option<Counter>, ttl: nat, now: Time, slack: nat): Option<Counter> {
    match Live(c, now, slack)
    case Some(live) => Some(live.(expiresAt := Some(now + ttl)))
    case None => c
  }

  function Lookup(data: map<Key, Counter>, key: Key): Option<Counter> {
    if key in data then Some(data[key]) else None
  }

  // ---------------------------------------------------------------- one key over a whole schedule

  /** What can happen to one key: a call increments the counter; if it got 1 it sets the expiry later on, or it is given
      up before it does. Other calls can come in between. */
  datatype Event = Increment(at: Time) | SetExpiry(at: Time) | GiveUp(at: Time)

  /** The counter, with its history: how many windows there have been, when the current one began and how many of the calls
      that got 1 have yet to set the expiry. */
  datatype Bucket = Bucket(counter: Option<Counter>, window: nat, start: Time, pending: nat)

  function Happened(b: Bucket, e: Event, config: Config, slack: nat): Bucket {
    match e
    case Increment(now) =>
      var c := Incremented(b.counter, now, slack);
      if c.count == 1 then Bucket(Some(c), b.window + 1, now, b.pending + 1) else b.(counter := Some(c))
    case SetExpiry(now) => Bucket(Expiring(b.counter, config.window, now, slack), b.window, b.start, Max(b.pending - 1, 0))
    case GiveUp(_) => b.(pending := Max(b.pending - 1, 0))
  }

  function After(events: seq<Event>, config: Config, slack: nat): Bucket {
    if events == [] then Bucket(None, 0, 0, 0)
    else Happened(After(events[..|events| - 1], config, slack), events[|events| - 1], config, slack)
  }

  ghost predicate Ordered(events: seq<Event>) {
    forall i, j :: 0 <= i < j < |events| ==> events[i].at <= events[j].at
  }

  lemma OrderedAppend(events: seq<Event>, e: Event)
    requires Ordered(events) && (events != [] ==> events[|events| - 1].at <= e.at)
    ensures Ordered(events + [e])
  {
  }

  /** In order of time, and nobody sets an expiry but a call that got 1. */
  ghost predicate IsSchedule(events: seq<Event>, config: Config, slack: nat) {
    && Ordered(events)
    && forall i {:trigger events[i]} :: 0 <= i < |events| && !events[i].Increment? ==> After(events[..i], config, slack).pending > 0
  }

  lemma LastEvent(events: seq<Event>, n: nat, config: Config, slack: nat)
    requires 0 < n <= |events|
    ensures After(events[..n], config, slack) == Happened(After(events[..n - 1], config, slack), events[n - 1], config, slack)
  {
    assert events[..n][..n - 1] == events[..n - 1];
  }

  /** The window the `i`-th event falls in. */
  function WindowOf(events: seq<Event>, i: nat, config: Config, slack: nat): nat
    requires i < |events|
  {
    After(events[..i + 1], config, slack).window
  }

  /** Whether the `i`-th event is a call that is allowed. */
  predicate Allowed(events: seq<Event>, i: nat, config: Config, slack: nat)
    requires i < |events|
  {
    var c := After(events[..i + 1], config, slack).counter;
    events[i].Increment? && c.Some? && c.value.count <= config.capacity
  }

  /** The events of one more call that runs alone: it increments, and sets the expiry if that began a window. */
  function CallAlone(events: seq<Event>, now: Time, config: Config, slack: nat): seq<Event> {
    var more := events + [Increment(now)];
    if After(more, config, slack).window > After(events, config, slack).window then more + [SetExpiry(now)] else more
  }

  lemma AfterOne(events: seq<Event>, e: Event, config: Config, slack: nat)
    ensures After(events + [e], config, slack) == Happened(After(events, config, slack), e, config, slack)
  {
    assert (events + [e])[..|events|] == events;
  }

  lemma CallAloneIs(events: seq<Event>, now: Time, config: Config, slack: nat)
    ensures var (b, c) := (After(events, config, slack), Incremented(After(events, config, slack).counter, now, slack));
            var more := CallAlone(events, now, config, slack);
            && |events| < |more| && more[|events|] == Increment(now)
            && After(more, config, slack).counter == Some(if c.count == 1 then c.(expiresAt := Some(now + config.window)) else c)
            && (Allowed(more, |events|, config, slack) <==> c.count <= config.capacity)
  {
    var more := events + [Increment(now)];
    AfterOne(events, Increment(now), config, slack);
    AfterOne(more, SetExpiry(now), config, slack);
    assert CallAlone(events, now, config, slack)[..|events| + 1] == more;
  }

  /** A call that runs alone. */
  function Called(data: map<Key, Counter>, key: Key, config: Config, now: Time, slack: nat): Counter {
    var c := Incremented(Lookup(data, key), now, slack);
    if c.count == 1 then c.(expiresAt := Some(now + config.window)) else c
  }

  function Verdict(count: int, config: Config): RateLimitResult {
    RateLimitResult(count <= config.capacity, Max(config.capacity - count, 0), if count <= config.capacity then 0 else config.window)
  }

  class Store {
    var data: map<Key, Counter>

    const slack: nat

    constructor (slack: nat)
      ensures data == map[] && this.slack == slack
    {
      data := map[];
      this.slack := slack;
    }

    method Incr(key: Key, now: Time) returns (n: int)
      modifies this
      ensures data == old(data)[key := Incremented(Lookup(old(data), key), now, slack)] && n == data[key].count
    {
      var current, expiresAt := 0, None;
      if key in data && Alive(data[key], now, slack) { current, expiresAt := data[key].count, data[key].expiresAt; }
      data := data[key := Counter(current + 1, expiresAt)];
      n := current + 1;
    }

    method Expire(key: Key, ttl: nat, now: Time)
      modifies this
      ensures data == match Expiring(Lookup(old(data), key), ttl, now, slack)
                      case Some(c) => old(data)[key := c]
                      case None => old(data)
    {
      if key in data && Alive(data[key], now, slack) { data := data[key := data[key].(expiresAt := Some(now + ttl))]; }
    }

    /** One call against one bucket that runs alone: it takes the counter where its events take it, and what it answers is
        whether they allow it. */
    method CheckBucket(key: Key, config: Config, now: Time) returns (r: RateLimitResult)
      modifies this
      ensures data == old(data)[key := Called(old(data), key, config, now, slack)]
      ensures r == Verdict(data[key].count, config)
      ensures forall events :: After(events, config, slack).counter == Lookup(old(data), key) ==>
                var more := CallAlone(events, now, config, slack);
                && After(more, config, slack).counter == Lookup(data, key)
                && |events| < |more| && (r.allowed <==> Allowed(more, |events|, config, slack))
      ensures r.allowed <==> data[key].count <= config.capacity
      ensures r.allowed ==> r.remaining + data[key].count == config.capacity && r.retryAfter == 0
      ensures !r.allowed ==> r.remaining == 0 && r.retryAfter == config.window
    {
      forall events | After(events, config, slack).counter == Lookup(data, key)
        ensures var more := CallAlone(events, now, config, slack);
                && |events| < |more| && After(more, config, slack).counter == Some(Called(data, key, config, now, slack))
                && (Allowed(more, |events|, config, slack) <==> Called(data, key, config, now, slack).count <= config.capacity)
      {
        CallAloneIs(events, now, config, slack);
      }
      var count := Incr(key, now);
      if count == 1 { Expire(key, config.window, now); }
      var allowed := count <= config.capacity;
      r := RateLimitResult(allowed, Max(config.capacity - count, 0), if allowed then 0 else config.window);
    }

    /** First the bucket of the address, then the user's. An address over its limit is not counted against the user. */
    method CheckRateLimit(ipKey: Key, userKey: Option<Key>, limited: bool, ip: Config, user: Config, now: Time)
      returns (r: RateLimitResult)
      modifies this
      ensures !limited ==> r == RateLimitResult(true, UNLIMITED, 0) && data == old(data)
      ensures limited ==>
                var afterIp := old(data)[ipKey := Called(old(data), ipKey, ip, now, slack)];
                var ipResult := Verdict(afterIp[ipKey].count, ip);
                if !ipResult.allowed || userKey.None? then r == ipResult && data == afterIp
                else
                  && data == afterIp[userKey.value := Called(afterIp, userKey.value, user, now, slack)]
                  && var userResult := Verdict(data[userKey.value].count, user);
                     if !userResult.allowed then r == userResult
                     else r == RateLimitResult(true, Min(ipResult.remaining, userResult.remaining), 0)
      ensures limited && userKey != Some(ipKey) ==>
                && (r.allowed <==> data[ipKey].count <= ip.capacity
                                   && (userKey.Some? ==> userKey.value in data && data[userKey.value].count <= user.capacity))
                && (r.allowed ==> r.remaining + data[ipKey].count <= ip.capacity
                                  && (userKey.Some? ==> r.remaining + data[userKey.value].count <= user.capacity))
    {
      if !limited { return RateLimitResult(true, UNLIMITED, 0); }
      var ipResult := CheckBucket(ipKey, ip, now);
      if !ipResult.allowed || userKey.None? { return ipResult; }
      var userResult := CheckBucket(userKey.value, user, now);
      if !userResult.allowed { return userResult; }
      return RateLimitResult(true, Min(ipResult.remaining, userResult.remaining), 0);
    }
  }

  // ---------------------------------------------------------------- windows

  /** Calls made in a window among the first `n` events. */
  function CallsIn(events: seq<Event>, n: nat, window: nat, config: Config, slack: nat): nat
    requires n <= |events|
  {
    if n == 0 then 0
    else
      CallsIn(events, n - 1, window, config, slack)
      + (if events[n - 1].Increment? && WindowOf(events, n - 1, config, slack) == window then 1 else 0)
  }

  function AllowedInWindow(events: seq<Event>, n: nat, window: nat, config: Config, slack: nat): nat
    requires n <= |events|
  {
    if n == 0 then 0
    else
      AllowedInWindow(events, n - 1, window, config, slack)
      + (if WindowOf(events, n - 1, config, slack) == window && Allowed(events, n - 1, config, slack) then 1 else 0)
  }

  /** Allowed calls among the first `n` events with a time from `from` on and before `to`. */
  function AllowedIn(events: seq<Event>, n: nat, from: Time, to: Time, config: Config, slack: nat): nat
    requires n <= |events|
  {
    if n == 0 then 0
    else
      AllowedIn(events, n - 1, from, to, config, slack)
      + (if from <= events[n - 1].at < to && Allowed(events, n - 1, config, slack) then 1 else 0)
  }

  /** How a schedule leaves the counter: as many calls as were made in the window; at most one call has yet to set the
      expiry, and until it does there is none; an expiry is at least one window length after the window began. */
  ghost predicate Tracks(events: seq<Event>, n: nat, config: Config, slack: nat)
    requires n <= |events|
  {
    var b := After(events[..n], config, slack);
    && (b.counter.None? <==> b.window == 0)
    && (b.counter.Some? ==>
          && 1 <= b.counter.value.count == CallsIn(events, n, b.window, config, slack)
          && (b.counter.value.expiresAt.Some? ==> b.start + config.window <= b.counter.value.expiresAt.value))
    && (forall w :: w > b.window || w == 0 ==> CallsIn(events, n, w, config, slack) == 0)
    && b.pending <= 1
    && (b.pending == 1 ==> b.counter.Some? && b.counter.value.expiresAt.None?)
    && (n > 0 ==> b.start <= events[n - 1].at)
  }

  lemma {:induction false} CountersAreWindows(events: seq<Event>, n: nat, config: Config, slack: nat)
    requires n <= |events| && IsSchedule(events, config, slack)
    ensures Tracks(events, n, config, slack)
  {
    if n > 0 {
      CountersAreWindows(events, n - 1, config, slack);
      LastEvent(events, n, config, slack);
      if n > 1 { assert events[n - 2].at <= events[n - 1].at; }
    } else {
      assert events[..0] == [];
    }
  }

  /** Within one window as many calls are allowed as are made, up to the capacity. */
  lemma {:induction false} WindowBound(events: seq<Event>, n: nat, window: nat, config: Config, slack: nat)
    requires n <= |events| && IsSchedule(events, config, slack)
    ensures AllowedInWindow(events, n, window, config, slack) == Min(CallsIn(events, n, window, config, slack), config.capacity)
  {
    if n > 0 {
      WindowBound(events, n - 1, window, config, slack);
      CountersAreWindows(events, n, config, slack);
      LastEvent(events, n, config, slack);
    }
  }

  /** Windows follow one another: a new one begins a full window length after the one before it did, and later than all
      calls made before. */
  lemma {:induction false} WindowsAdvance(events: seq<Event>, i: nat, n: nat, config: Config, slack: nat)
    requires i < n <= |events| && IsSchedule(events, config, slack)
    ensures var b, was := After(events[..n], config, slack), After(events[..i + 1], config, slack);
            && was.window <= b.window
            && (was.window == b.window ==> was.start == b.start)
            && (0 < was.window < b.window ==> events[i].at <= b.start && was.start + config.window + slack <= b.start)
  {
    LastEvent(events, n, config, slack);
    if i < n - 1 {
      WindowsAdvance(events, i, n - 1, config, slack);
      CountersAreWindows(events, n - 1, config, slack);
    }
  }

  ghost predicate GivenUp(b: Bucket) {
    b.counter.Some? && b.counter.value.expiresAt.None? && b.pending == 0
  }

  lemma {:induction false} GivenUpStays(events: seq<Event>, m: nat, n: nat, config: Config, slack: nat)
    requires m <= n <= |events| && IsSchedule(events, config, slack) && GivenUp(After(events[..m], config, slack))
    ensures var was, b := After(events[..m], config, slack), After(events[..n], config, slack);
            GivenUp(b) && b.window == was.window && 1 <= was.counter.value.count <= b.counter.value.count
  {
    if m == n {
      CountersAreWindows(events, m, config, slack);
    } else {
      GivenUpStays(events, m, n - 1, config, slack);
      assert events[n - 1].Increment?;
      hide IsSchedule, After;
      LastEvent(events, n, config, slack);
    }
  }

  /** Once the call that got 1 is given up before it has set the expiry, the window never ends: every later call falls in
      it, and after `capacity` calls none is ever allowed. */
  lemma GivenUpNeverEnds(events: seq<Event>, m: nat, i: nat, config: Config, slack: nat)
    requires m <= i < |events| && IsSchedule(events, config, slack) && GivenUp(After(events[..m], config, slack))
    ensures WindowOf(events, i, config, slack) == After(events[..m], config, slack).window
    ensures After(events[..m], config, slack).counter.value.count >= config.capacity ==> !Allowed(events, i, config, slack)
  {
    hide IsSchedule, After;
    GivenUpStays(events, m, i, config, slack);
    GivenUpStays(events, m, i + 1, config, slack);
    LastEvent(events, i + 1, config, slack);
  }

  // ---------------------------------------------------------------- any interval of one window length

  /** Two windows begin at least one window length apart, so calls within less fall in the first call's window or the
      next. */
  lemma {:induction false} TwoWindows(events: seq<Event>, f: nat, n: nat, config: Config, slack: nat)
    requires f < n <= |events| && IsSchedule(events, config, slack) && events[n - 1].at < events[f].at + config.window
    requires WindowOf(events, f, config, slack) > 0
    ensures var b, first := After(events[..n], config, slack), WindowOf(events, f, config, slack);
            first <= b.window <= first + 1 && (b.window == first + 1 ==> events[f].at <= b.start)
  {
    LastEvent(events, n, config, slack);
    if f < n - 1 {
      TwoWindows(events, f, n - 1, config, slack);
      CountersAreWindows(events, n - 1, config, slack);
    }
  }

  lemma {:induction false} CountByWindow(events: seq<Event>, n: nat, from: Time, to: Time, first: nat, config: Config, slack: nat)
    requires n <= |events|
    requires forall i :: 0 <= i < n && events[i].Increment? && from <= events[i].at < to ==>
               first <= WindowOf(events, i, config, slack) <= first + 1
    ensures AllowedIn(events, n, from, to, config, slack)
            <= AllowedInWindow(events, n, first, config, slack) + AllowedInWindow(events, n, first + 1, config, slack)
  {
    if n > 0 { CountByWindow(events, n - 1, from, to, first, config, slack); }
  }

  lemma CallHasWindow(events: seq<Event>, i: nat, config: Config, slack: nat)
    requires i < |events| && IsSchedule(events, config, slack) && events[i].Increment?
    ensures WindowOf(events, i, config, slack) > 0
  {
    LastEvent(events, i + 1, config, slack);
    CountersAreWindows(events, i + 1, config, slack);
  }

  /** The window of the first call in the interval. */
  lemma FirstWindow(events: seq<Event>, from: Time, config: Config, slack: nat) returns (first: nat)
    requires IsSchedule(events, config, slack)
    ensures forall i :: 0 <= i < |events| && events[i].Increment? && from <= events[i].at < from + config.window ==>
              first <= WindowOf(events, i, config, slack) <= first + 1
  {
    hide After, IsSchedule;
    var f := 0;
    while f < |events| && !(events[f].Increment? && from <= events[f].at)
      invariant f <= |events| && forall i :: 0 <= i < f ==> !(events[i].Increment? && from <= events[i].at)
    {
      f := f + 1;
    }
    if f == |events| { return 0; }
    first := WindowOf(events, f, config, slack);
    CallHasWindow(events, f, config, slack);
    forall i | f <= i < |events| && events[i].at < from + config.window
      ensures first <= WindowOf(events, i, config, slack) <= first + 1
    {
      TwoWindows(events, f, i + 1, config, slack);
    }
  }

  /** For every schedule, within any half-open interval of one window length no more than twice the capacity is
      allowed. */
  lemma IntervalBound(events: seq<Event>, from: Time, config: Config, slack: nat)
    requires IsSchedule(events, config, slack)
    ensures AllowedIn(events, |events|, from, from + config.window, config, slack) <= 2 * config.capacity
  {
    var first := FirstWindow(events, from, config, slack);
    CountByWindow(events, |events|, from, from + config.window, first, config, slack);
    WindowBound(events, |events|, first, config, slack);
    WindowBound(events, |events|, first + 1, config, slack);
  }

  // ---------------------------------------------------------------- when a window ends

  /** A call begins a window exactly when there is no counter or its expiry has passed; what sets the expiry sets it one
      window length ahead, and nothing else changes it. */
  ghost predicate Moves(b: Bucket, b': Bucket, e: Event, config: Config, slack: nat) {
    match e
    case Increment(now) =>
      var over := b.counter.None? || (b.counter.value.expiresAt.Some? && b.counter.value.expiresAt.value + slack <= now);
      && b'.window == (if over then b.window + 1 else b.window) && b'.pending == (if over then b.pending + 1 else b.pending)
      && b'.counter.Some? && b'.counter.value.expiresAt == (if over then None else b.counter.value.expiresAt)
    case SetExpiry(now) =>
      && b'.window == b.window && b'.pending == b.pending - 1
      && b'.counter.Some? && b'.counter.value.expiresAt == Some(now + config.window)
    case GiveUp(_) => b'.window == b.window && b'.pending == b.pending - 1 && b'.counter == b.counter
  }

  lemma WindowEndsExactly(events: seq<Event>, n: nat, config: Config, slack: nat)
    requires n < |events| && IsSchedule(events, config, slack)
    ensures Moves(After(events[..n], config, slack), After(events[..n + 1], config, slack), events[n], config, slack)
  {
    CountersAreWindows(events, n, config, slack);
    LastEvent(events, n + 1, config, slack);
    assert !events[n].Increment? ==> After(events[..n], config, slack).pending > 0;
    hide After, IsSchedule;
  }

  lemma MaySet(events: seq<Event>, i: nat, config: Config, slack: nat)
    requires i < |events| && IsSchedule(events, config, slack)
    ensures !events[i].Increment? ==> After(events[..i], config, slack).pending > 0
  {
    hide After, Ordered;
  }

  /** The window is over, or it has this expiry and nobody has yet to set one. */
  ghost predicate ExpirySet(b: Bucket, window: nat, at: Time) {
    && window <= b.window
    && (b.window == window ==> b.pending == 0 && b.counter.Some? && b.counter.value.expiresAt == Some(at))
  }

  lemma SetsExpiry(events: seq<Event>, j: nat, config: Config, slack: nat)
    requires j < |events| && IsSchedule(events, config, slack) && events[j].SetExpiry?
    ensures ExpirySet(After(events[..j + 1], config, slack), WindowOf(events, j, config, slack), events[j].at + config.window)
  {
    WindowEndsExactly(events, j, config, slack);
    CountersAreWindows(events, j + 1, config, slack);
    hide After, IsSchedule;
  }

  lemma KeepsExpiry(b: Bucket, b': Bucket, e: Event, window: nat, at: Time, config: Config, slack: nat)
    requires Moves(b, b', e, config, slack) && (!e.Increment? ==> b.pending > 0) && ExpirySet(b, window, at)
    ensures ExpirySet(b', window, at)
  {
  }

  lemma {:induction false} ExpiryStays(events: seq<Event>, j: nat, n: nat, config: Config, slack: nat)
    requires j < n <= |events| && IsSchedule(events, config, slack) && events[j].SetExpiry?
    ensures ExpirySet(After(events[..n], config, slack), WindowOf(events, j, config, slack), events[j].at + config.window)
  {
    hide *;
    if n == j + 1 {
      SetsExpiry(events, j, config, slack);
    } else {
      MaySet(events, n - 1, config, slack);
      ExpiryStays(events, j, n - 1, config, slack);
      WindowEndsExactly(events, n - 1, config, slack);
      KeepsExpiry(After(events[..n - 1], config, slack), After(events[..n], config, slack), events[n - 1],
                  WindowOf(events, j, config, slack), events[j].at + config.window, config, slack);
    }
  }

  /** A limit does not last: once the expiry is set, calls a window length later are in a new window, and if they begin it
      they are allowed. */
  lemma AllowedAgain(events: seq<Event>, j: nat, i: nat, config: Config, slack: nat)
    requires j < i < |events| && IsSchedule(events, config, slack) && events[j].SetExpiry? && events[i].Increment?
    requires events[j].at + config.window + slack <= events[i].at && config.capacity > 0
    ensures WindowOf(events, j, config, slack) < WindowOf(events, i, config, slack)
    ensures After(events[..i], config, slack).window < WindowOf(events, i, config, slack) ==> Allowed(events, i, config, slack)
  {
    hide After, IsSchedule;
    ExpiryStays(events, j, i, config, slack);
    WindowEndsExactly(events, i, config, slack);
    LastEvent(events, i + 1, config, slack);
  }

  // ---------------------------------------------------------------- calls that run alone

  function AllAlone(calls: seq<Time>, config: Config, slack: nat): seq<Event> {
    if calls == [] then [] else CallAlone(AllAlone(calls[..|calls| - 1], config, slack), calls[|calls| - 1], config, slack)
  }

  /** What the `i`-th of these calls is answered. */
  predicate Answer(calls: seq<Time>, i: nat, config: Config, slack: nat)
    requires i < |calls|
  {
    var n := |AllAlone(calls[..i], config, slack)|;
    n < |AllAlone(calls[..i + 1], config, slack)| && Allowed(AllAlone(calls[..i + 1], config, slack), n, config, slack)
  }

  function AnswersIn(calls: seq<Time>, n: nat, from: Time, to: Time, config: Config, slack: nat): nat
    requires n <= |calls|
  {
    if n == 0 then 0
    else
      AnswersIn(calls, n - 1, from, to, config, slack)
      + (if from <= calls[n - 1] < to && Answer(calls, n - 1, config, slack) then 1 else 0)
  }

  ghost predicate InOrder(calls: seq<Time>) {
    forall i, j :: 0 <= i < j < |calls| ==> calls[i] <= calls[j]
  }

  lemma AppendKeepsSchedule(events: seq<Event>, e: Event, config: Config, slack: nat)
    requires IsSchedule(events, config, slack) && (events != [] ==> events[|events| - 1].at <= e.at)
    requires !e.Increment? ==> After(events, config, slack).pending > 0
    ensures IsSchedule(events + [e], config, slack)
  {
    var all := events + [e];
    OrderedAppend(events, e);
    hide After, Ordered;
    forall i | 0 <= i < |all| && !all[i].Increment? ensures After(all[..i], config, slack).pending > 0 {
      if i < |events| { assert all[i] == events[i] && all[..i] == events[..i]; } else { assert all[..i] == events; }
    }
  }

  lemma AloneKeepsSchedule(events: seq<Event>, now: Time, config: Config, slack: nat)
    requires IsSchedule(events, config, slack) && (events != [] ==> events[|events| - 1].at <= now)
    ensures var all := CallAlone(events, now, config, slack);
            all != [] && all[|all| - 1].at == now && IsSchedule(all, config, slack)
  {
    var more := events + [Increment(now)];
    AfterOne(events, Increment(now), config, slack);
    assert After(more, config, slack).window > After(events, config, slack).window ==> After(more, config, slack).pending > 0;
    hide After, Happened, Incremented, IsSchedule;
    AppendKeepsSchedule(events, Increment(now), config, slack);
    if After(more, config, slack).window > After(events, config, slack).window {
      AppendKeepsSchedule(more, SetExpiry(now), config, slack);
    }
  }

  lemma FrontInOrder(calls: seq<Time>)
    requires InOrder(calls) && calls != []
    ensures var front := calls[..|calls| - 1]; InOrder(front) && (front != [] ==> front[|front| - 1] <= calls[|calls| - 1])
  {
  }

  lemma NoCallsSchedule(config: Config, slack: nat)
    ensures AllAlone([], config, slack) == [] && IsSchedule([], config, slack)
  {
  }

  lemma LastAlone(calls: seq<Time>, config: Config, slack: nat)
    requires calls != []
    ensures AllAlone(calls, config, slack) == CallAlone(AllAlone(calls[..|calls| - 1], config, slack), calls[|calls| - 1], config, slack)
  {
    hide CallAlone;
  }

  lemma {:induction false} AllAloneSchedule(calls: seq<Time>, config: Config, slack: nat)
    requires InOrder(calls)
    ensures var events := AllAlone(calls, config, slack);
            && IsSchedule(events, config, slack)
            && (calls == [] <==> events == []) && (calls != [] ==> events[|events| - 1].at == calls[|calls| - 1])
  {
    if calls == [] {
      NoCallsSchedule(config, slack);
    } else {
      hide *;
      var front := calls[..|calls| - 1];
      FrontInOrder(calls);
      AllAloneSchedule(front, config, slack);
      AloneKeepsSchedule(AllAlone(front, config, slack), calls[|calls| - 1], config, slack);
      LastAlone(calls, config, slack);
    }
  }

  lemma {:induction false} CountFront(events: seq<Event>, more: seq<Event>, n: nat, from: Time, to: Time, config: Config, slack: nat)
    requires n <= |events| && events <= more
    ensures AllowedIn(events, n, from, to, config, slack) == AllowedIn(more, n, from, to, config, slack)
  {
    if n > 0 {
      CountFront(events, more, n - 1, from, to, config, slack);
      assert more[..n] == events[..n];
    }
  }

  lemma {:induction false} AnswersFront(front: seq<Time>, calls: seq<Time>, n: nat, from: Time, to: Time, config: Config, slack: nat)
    requires front <= calls && n <= |front|
    ensures AnswersIn(front, n, from, to, config, slack) == AnswersIn(calls, n, from, to, config, slack)
  {
    hide AllAlone, Allowed;
    if n > 0 {
      AnswersFront(front, calls, n - 1, from, to, config, slack);
      assert front[..n - 1] == calls[..n - 1] && front[..n] == calls[..n];
    }
  }

  lemma AloneAllows(events: seq<Event>, now: Time, from: Time, to: Time, config: Config, slack: nat)
    ensures var all := CallAlone(events, now, config, slack);
            && |events| < |all|
            && AllowedIn(all, |all|, from, to, config, slack)
               == AllowedIn(events, |events|, from, to, config, slack)
                  + (if from <= now < to && Allowed(all, |events|, config, slack) then 1 else 0)
  {
    var all := CallAlone(events, now, config, slack);
    CallAloneIs(events, now, config, slack);
    CountFront(events, all, |events|, from, to, config, slack);
    assert |all| > |events| + 1 ==> !Allowed(all, |events| + 1, config, slack);
    hide After, Allowed;
  }

  lemma LastAnswer(calls: seq<Time>, config: Config, slack: nat)
    requires calls != []
    ensures var (events, all) := (AllAlone(calls[..|calls| - 1], config, slack), AllAlone(calls, config, slack));
            && all == CallAlone(events, calls[|calls| - 1], config, slack) && |events| < |all|
            && (Answer(calls, |calls| - 1, config, slack) <==> Allowed(all, |events|, config, slack))
  {
    assert calls[..|calls|] == calls;
    CallAloneIs(AllAlone(calls[..|calls| - 1], config, slack), calls[|calls| - 1], config, slack);
    hide After, Allowed, CallAlone;
  }

  lemma AnswersNext(calls: seq<Time>, from: Time, to: Time, config: Config, slack: nat)
    requires calls != []
    ensures var front := calls[..|calls| - 1];
            AnswersIn(calls, |calls|, from, to, config, slack)
            == AnswersIn(front, |front|, from, to, config, slack)
               + (if from <= calls[|front|] < to && Answer(calls, |front|, config, slack) then 1 else 0)
  {
    hide AllAlone, Answer;
    AnswersFront(calls[..|calls| - 1], calls, |calls| - 1, from, to, config, slack);
  }

  lemma {:induction false} AnswersAreAllowed(calls: seq<Time>, from: Time, to: Time, config: Config, slack: nat)
    ensures AnswersIn(calls, |calls|, from, to, config, slack)
            == AllowedIn(AllAlone(calls, config, slack), |AllAlone(calls, config, slack)|, from, to, config, slack)
  {
    if calls != [] {
      hide *;
      var front, now := calls[..|calls| - 1], calls[|calls| - 1];
      AnswersAreAllowed(front, from, to, config, slack);
      AnswersNext(calls, from, to, config, slack);
      LastAnswer(calls, config, slack);
      AloneAllows(AllAlone(front, config, slack), now, from, to, config, slack);
    }
  }

  /** Of calls that run one after the other, no more than twice the capacity are answered yes within a window length. */
  lemma AnswersBound(calls: seq<Time>, from: Time, config: Config, slack: nat)
    requires InOrder(calls)
    ensures AnswersIn(calls, |calls|, from, from + config.window, config, slack) <= 2 * config.capacity
  {
    hide *;
    AllAloneSchedule(calls, config, slack);
    AnswersAreAllowed(calls, from, from + config.window, config, slack);
    IntervalBound(AllAlone(calls, config, slack), from, config, slack);
  }
}
