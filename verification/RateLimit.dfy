/**
 * The fixed-window request limiter over a counter store whose keys expire. Time is one
 * non-decreasing clock in nanoseconds; a key is a token, a window type and an aligned bucket.
 */
module RateLimit {
  type Token = nat
  type Time = int

  const SECOND := 1_000_000_000
  const MINUTE := 60_000_000_000
  const HOUR := 3_600_000_000_000

  datatype Kind = Minute | Hour

  datatype Key = Key(token: Token, kind: Kind, bucket: int)

  datatype Cell = Cell(count: nat, expires: Time)

  type Cells = map<Key, Cell>

  datatype Limits = Limits(perMinute: int, perHour: int)

  datatype WindowResult = WindowResult(limit: int, remaining: int, reset: int)

  datatype Result = Result(allowed: bool, minute: WindowResult, hour: WindowResult, retryAfter: int)

  function Width(kind: Kind): nat {
    match kind
    case Minute => MINUTE
    case Hour => HOUR
  }

  function Bucket(kind: Kind, t: Time): int {
    match kind
    case Minute => t / MINUTE
    case Hour => t / HOUR
  }

  /** The instant at which the window containing t resets. */
  function Reset(kind: Kind, t: Time): Time {
    match kind
    case Minute => (t / MINUTE + 1) * MINUTE
    case Hour => (t / HOUR + 1) * HOUR
  }

  function KeyAt(token: Token, kind: Kind, t: Time): Key {
    Key(token, kind, Bucket(kind, t))
  }

  function Unix(t: Time): int {
    t / SECOND
  }

  function Remaining(limit: int, count: int): int {
    if limit - count < 0 then 0 else limit - count
  }

  // The store -------------------------------------------------------------------------

  /** What is left of the store at `now`: expired keys are gone. */
  function Unexpired(cells: Cells, now: Time): Cells {
    map k | k in cells && now < cells[k].expires :: cells[k]
  }

  /** Increment a counter, setting its expiry when this call takes it to 1. */
  function Incremented(cells: Cells, key: Key, ttl: nat, now: Time): Cells {
    var live := Unexpired(cells, now);
    var count := if key in live then live[key].count + 1 else 1;
    live[key := Cell(count, if count == 1 then now + ttl else live[key].expires)]
  }

  // The decision ----------------------------------------------------------------------

  function Limit(limits: Limits, kind: Kind): int {
    match kind
    case Minute => limits.perMinute
    case Hour => limits.perHour
  }

  /** The decision for a request that is the minuteCount-th and hourCount-th of its windows. */
  function Decide(limits: Limits, now: Time, minuteCount: int, hourCount: int): Result {
    var overMinute := minuteCount > limits.perMinute;
    var overHour := hourCount > limits.perHour;
    var secs := Unix(Reset(if overHour then Hour else Minute, now)) - Unix(now);
    Result(!overMinute && !overHour,
           WindowResult(limits.perMinute, Remaining(limits.perMinute, minuteCount), Unix(Reset(Minute, now))),
           WindowResult(limits.perHour, Remaining(limits.perHour, hourCount), Unix(Reset(Hour, now))),
           if !overMinute && !overHour then 0 else if secs < 1 then 1 else secs)
  }

  function AfterAllow(cells: Cells, token: Token, now: Time): Cells {
    Incremented(Incremented(cells, KeyAt(token, Minute, now), MINUTE, now), KeyAt(token, Hour, now), HOUR, now)
  }

  function AllowResult(cells: Cells, token: Token, limits: Limits, now: Time): Result {
    var once := Incremented(cells, KeyAt(token, Minute, now), MINUTE, now);
    var twice := Incremented(once, KeyAt(token, Hour, now), HOUR, now);
    Decide(limits, now, once[KeyAt(token, Minute, now)].count, twice[KeyAt(token, Hour, now)].count)
  }

  /** A counter server: the increment-and-expire script runs as one step. */
  class CounterStore {
    var cells: Cells

    constructor ()
      ensures cells == map[]
    {
      cells := map[];
    }

    method Increment(key: Key, ttl: nat, now: Time) returns (count: nat)
      modifies this
      ensures cells == Incremented(old(cells), key, ttl, now)
      ensures key in cells && count == cells[key].count
    {
      cells := Unexpired(cells, now);
      count := if key in cells then cells[key].count + 1 else 1;
      if count == 1 {
        cells := cells[key := Cell(count, now + ttl)];
      } else {
        cells := cells[key := Cell(count, cells[key].expires)];
      }
    }
  }

  class Limiter {
    const store: CounterStore

    constructor (store: CounterStore)
      ensures this.store == store
    {
      this.store := store;
    }

    /** Both windows are counted, whatever the verdict. */
    method Allow(token: Token, limits: Limits, now: Time) returns (res: Result)
      modifies store
      ensures store.cells == AfterAllow(old(store.cells), token, now)
      ensures res == AllowResult(old(store.cells), token, limits, now)
    {
      var minReset := (now / MINUTE + 1) * MINUTE;
      var hourReset := (now / HOUR + 1) * HOUR;
      var minCount := store.Increment(KeyAt(token, Minute, now), MINUTE, now);
      var hourCount := store.Increment(KeyAt(token, Hour, now), HOUR, now);
      var overMinute := minCount > limits.perMinute;
      var overHour := hourCount > limits.perHour;
      var retryAfter := 0;
      if overMinute || overHour {
        var reset := minReset;
        if overHour {
          reset := hourReset;
        }
        var secs := Unix(reset) - Unix(now);
        if secs < 1 {
          secs := 1;
        }
        retryAfter := secs;
      }
      res := Result(!overMinute && !overHour,
                    WindowResult(limits.perMinute, Remaining(limits.perMinute, minCount), Unix(minReset)),
                    WindowResult(limits.perHour, Remaining(limits.perHour, hourCount), Unix(hourReset)),
                    retryAfter);
    }
  }

  // Runs ------------------------------------------------------------------------------

  datatype Call = Call(token: Token, now: Time)

  ghost predicate Timed(calls: seq<Call>) {
    forall i, j :: 0 <= i < j < |calls| ==> calls[i].now <= calls[j].now
  }

  /** The store after a run that began with an empty one. */
  function Store(calls: seq<Call>): Cells {
    if calls == [] then map[]
    else
      var last := calls[|calls| - 1];
      AfterAllow(Store(calls[..|calls| - 1]), last.token, last.now)
  }

  /** The limiter's answer to the n-th call of a run. */
  function Answer(limits: Token -> Limits, calls: seq<Call>, n: nat): Result
    requires n < |calls|
  {
    AllowResult(Store(calls[..n]), calls[n].token, limits(calls[n].token), calls[n].now)
  }

  // The reference: plain counting -----------------------------------------------------

  function InWindow(c: Call, k: Key): bool {
    KeyAt(c.token, k.kind, c.now) == k
  }

  /** How many of the first n calls fall in a window. */
  function Calls(calls: seq<Call>, n: nat, k: Key): nat
    requires n <= |calls|
  {
    if n == 0 then 0 else Calls(calls, n - 1, k) + if InWindow(calls[n - 1], k) then 1 else 0
  }

  function WindowEnd(k: Key): Time {
    match k.kind
    case Minute => (k.bucket + 1) * MINUTE
    case Hour => (k.bucket + 1) * HOUR
  }

  /** Each counter of one type holds the number of calls in its window, and outlives the window. */
  ghost predicate Exact(kind: Kind, cells: Cells, calls: seq<Call>, n: nat, now: Time)
    requires n <= |calls|
  {
    forall k: Key :: k.kind == kind ==>
      if k in cells then cells[k].count == Calls(calls, n, k) > 0 && WindowEnd(k) <= cells[k].expires
      else Calls(calls, n, k) == 0 || WindowEnd(k) <= now
  }

  lemma OwnWindow(token: Token, kind: Kind, t: Time)
    ensures t < WindowEnd(KeyAt(token, kind, t)) <= t + Width(kind)
    ensures WindowEnd(KeyAt(token, kind, t)) == Reset(kind, t)
  {}

  /** Counting the next call in its own window keeps the counters of that type exact. */
  lemma CountedOnce(kind: Kind, cells: Cells, calls: seq<Call>, n: nat, was: Time)
    requires n < |calls| && was <= calls[n].now && Exact(kind, cells, calls, n, was)
    ensures
      var key := KeyAt(calls[n].token, kind, calls[n].now);
      Exact(kind, Incremented(cells, key, Width(kind), calls[n].now), calls, n + 1, calls[n].now)
  {
    var now := calls[n].now;
    var key := KeyAt(calls[n].token, kind, now);
    var after := Incremented(cells, key, Width(kind), now);
    OwnWindow(calls[n].token, kind, now);
    forall k: Key | k.kind == kind
      ensures if k in after then after[k].count == Calls(calls, n + 1, k) > 0 && WindowEnd(k) <= after[k].expires
              else Calls(calls, n + 1, k) == 0 || WindowEnd(k) <= now
    {
      assert InWindow(calls[n], k) <==> k == key;
    }
  }

  /** Touching a counter of the other type only lets expired keys go. */
  lemma OtherTypeKept(kind: Kind, cells: Cells, calls: seq<Call>, n: nat, was: Time, key: Key, ttl: nat, now: Time)
    requires n <= |calls| && was <= now && key.kind != kind && Exact(kind, cells, calls, n, was)
    ensures Exact(kind, Incremented(cells, key, ttl, now), calls, n, now)
  {}

  function LastTime(calls: seq<Call>, n: nat): Time
    requires n <= |calls|
  {
    if n > 0 then calls[n - 1].now else if |calls| > 0 then calls[0].now else 0
  }

  lemma OneCallCounted(cells: Cells, calls: seq<Call>, n: nat, was: Time)
    requires n < |calls| && was <= calls[n].now
    requires Exact(Minute, cells, calls, n, was) && Exact(Hour, cells, calls, n, was)
    ensures var after := AfterAllow(cells, calls[n].token, calls[n].now);
            Exact(Minute, after, calls, n + 1, calls[n].now) && Exact(Hour, after, calls, n + 1, calls[n].now)
  {
    var c := calls[n];
    var minute, hour := KeyAt(c.token, Minute, c.now), KeyAt(c.token, Hour, c.now);
    var once := Incremented(cells, minute, MINUTE, c.now);
    CountedOnce(Minute, cells, calls, n, was);
    OtherTypeKept(Hour, cells, calls, n, was, minute, MINUTE, c.now);
    CountedOnce(Hour, once, calls, n, c.now);
    OtherTypeKept(Minute, once, calls, n + 1, c.now, hour, HOUR, c.now);
  }

  /** Every counter of a reachable store is exact: none expires inside its own window. */
  lemma {:induction false} CountersStayExact(calls: seq<Call>, n: nat)
    requires n <= |calls| && Timed(calls)
    ensures Exact(Minute, Store(calls[..n]), calls, n, LastTime(calls, n))
    ensures Exact(Hour, Store(calls[..n]), calls, n, LastTime(calls, n))
  {
    if n > 0 {
      CountersStayExact(calls, n - 1);
      assert calls[..n][..n - 1] == calls[..n - 1];
      OneCallCounted(Store(calls[..n - 1]), calls, n - 1, LastTime(calls, n - 1));
    }
  }

  /** The first of the first n calls to fall in a window. */
  function FirstIn(calls: seq<Call>, n: nat, k: Key): (i: nat)
    requires n <= |calls|
    ensures i <= n && (i < n ==> InWindow(calls[i], k)) && forall j :: 0 <= j < i ==> !InWindow(calls[j], k)
  {
    if n == 0 then 0
    else
      var before := FirstIn(calls, n - 1, k);
      if before < n - 1 || InWindow(calls[n - 1], k) then before else n
  }

  /** The expiry of a counter of one type is set by the first call it counts, and by no later one. */
  ghost predicate SetOnce(kind: Kind, cells: Cells, calls: seq<Call>, n: nat)
    requires n <= |calls|
  {
    forall k: Key :: k.kind == kind && k in cells ==>
      var i := FirstIn(calls, n, k);
      i < n && cells[k].expires == calls[i].now + Width(kind)
  }

  lemma {:induction false} NoneIsZero(calls: seq<Call>, n: nat, k: Key)
    requires n <= |calls|
    ensures Calls(calls, n, k) == 0 <==> FirstIn(calls, n, k) == n
  {
    if n > 0 {
      NoneIsZero(calls, n - 1, k);
    }
  }

  lemma OwnExpiry(kind: Kind, cells: Cells, calls: seq<Call>, n: nat, was: Time)
    requires n < |calls| && was <= calls[n].now && Exact(kind, cells, calls, n, was) && SetOnce(kind, cells, calls, n)
    ensures SetOnce(kind, Incremented(cells, KeyAt(calls[n].token, kind, calls[n].now), Width(kind), calls[n].now), calls, n + 1)
  {
    var now := calls[n].now;
    var key := KeyAt(calls[n].token, kind, now);
    NoneIsZero(calls, n, key);
    OwnWindow(calls[n].token, kind, now);
    assert forall k: Key :: k.kind == kind ==> (InWindow(calls[n], k) <==> k == key);
  }

  lemma OtherExpiry(kind: Kind, cells: Cells, calls: seq<Call>, n: nat, key: Key, ttl: nat, now: Time)
    requires n <= |calls| && key.kind != kind && SetOnce(kind, cells, calls, n)
    ensures SetOnce(kind, Incremented(cells, key, ttl, now), calls, n)
  {}

  lemma OneCallExpiry(cells: Cells, calls: seq<Call>, n: nat, was: Time)
    requires n < |calls| && was <= calls[n].now
    requires Exact(Minute, cells, calls, n, was) && Exact(Hour, cells, calls, n, was)
    requires SetOnce(Minute, cells, calls, n) && SetOnce(Hour, cells, calls, n)
    ensures var after := AfterAllow(cells, calls[n].token, calls[n].now);
            SetOnce(Minute, after, calls, n + 1) && SetOnce(Hour, after, calls, n + 1)
  {
    var c := calls[n];
    var minute, hour := KeyAt(c.token, Minute, c.now), KeyAt(c.token, Hour, c.now);
    var once := Incremented(cells, minute, MINUTE, c.now);
    OwnExpiry(Minute, cells, calls, n, was);
    OtherExpiry(Hour, cells, calls, n, minute, MINUTE, c.now);
    OtherTypeKept(Hour, cells, calls, n, was, minute, MINUTE, c.now);
    OwnExpiry(Hour, once, calls, n, c.now);
    OtherExpiry(Minute, once, calls, n + 1, hour, HOUR, c.now);
  }

  /** Every counter of a reachable store. */
  lemma {:induction false} ExpirySetOnce(calls: seq<Call>, n: nat)
    requires n <= |calls| && Timed(calls)
    ensures SetOnce(Minute, Store(calls[..n]), calls, n) && SetOnce(Hour, Store(calls[..n]), calls, n)
  {
    if n > 0 {
      assert calls[..n][..n - 1] == calls[..n - 1];
      ExpirySetOnce(calls, n - 1);
      CountersStayExact(calls, n - 1);
      OneCallExpiry(Store(calls[..n - 1]), calls, n - 1, LastTime(calls, n - 1));
    }
  }

  // Main results ----------------------------------------------------------------------

  /** The limiter answers as if it counted the calls of each aligned window itself. */
  lemma AnswersByCounting(limits: Token -> Limits, calls: seq<Call>, n: nat)
    requires n < |calls| && Timed(calls)
    ensures var c := calls[n];
            Answer(limits, calls, n) == Decide(limits(c.token), c.now, Calls(calls, n + 1, KeyAt(c.token, Minute, c.now)),
                                               Calls(calls, n + 1, KeyAt(c.token, Hour, c.now)))
  {
    var c := calls[n];
    var minute, hour := KeyAt(c.token, Minute, c.now), KeyAt(c.token, Hour, c.now);
    var cells := Store(calls[..n]);
    var was := LastTime(calls, n);
    CountersStayExact(calls, n);
    var once := Incremented(cells, minute, MINUTE, c.now);
    CountedOnce(Minute, cells, calls, n, was);
    OtherTypeKept(Hour, cells, calls, n, was, minute, MINUTE, c.now);
    CountedOnce(Hour, once, calls, n, c.now);
    assert minute in once && hour in Incremented(once, hour, HOUR, c.now);
  }

  /** t lies in clock minute or clock hour k. */
  predicate InClock(kind: Kind, k: int, t: Time) {
    match kind
    case Minute => k * 60_000_000_000 <= t < (k + 1) * 60_000_000_000
    case Hour => k * 3_600_000_000_000 <= t < (k + 1) * 3_600_000_000_000
  }

  /** How many of the first n calls are the token's in that minute or hour. */
  function CallsIn(calls: seq<Call>, n: nat, token: Token, kind: Kind, k: int): nat
    requires n <= |calls|
  {
    if n == 0 then 0
    else CallsIn(calls, n - 1, token, kind, k) + if calls[n - 1].token == token && InClock(kind, k, calls[n - 1].now) then 1 else 0
  }

  lemma ClockBucket(kind: Kind, k: int, t: Time)
    ensures InClock(kind, k, t) <==> Bucket(kind, t) == k
  {}

  lemma {:induction false} WindowIsClock(calls: seq<Call>, n: nat, token: Token, kind: Kind, k: int)
    requires n <= |calls|
    ensures Calls(calls, n, Key(token, kind, k)) == CallsIn(calls, n, token, kind, k)
  {
    if n > 0 {
      WindowIsClock(calls, n - 1, token, kind, k);
      ClockBucket(kind, k, calls[n - 1].now);
    }
  }

  lemma SecondsOf(seconds: int)
    ensures Unix(seconds * 1_000_000_000) == seconds
  {}

  /** One window of an answer: its limit, what is left of it, and the second in which it starts anew. */
  predicate Reads(r: WindowResult, limit: int, count: int, anew: int) {
    r.limit == limit && r.remaining == (if count <= limit then limit - count else 0) && r.reset == anew
  }

  lemma DecisionReads(l: Limits, now: Time, m: int, h: int, minute: int, hour: int)
    requires Bucket(Minute, now) == minute && Bucket(Hour, now) == hour
    ensures var a := Decide(l, now, m, h);
      && (a.allowed <==> m <= l.perMinute && h <= l.perHour) && (a.retryAfter == 0 <==> a.allowed)
      && Reads(a.minute, l.perMinute, m, (minute + 1) * 60) && Reads(a.hour, l.perHour, h, (hour + 1) * 3600)
  {
    SecondsOf((minute + 1) * 60);
    SecondsOf((hour + 1) * 3600);
  }

  /**
   * What the caller reads off an answer: admitted exactly when neither the calls of the clock minute
   * nor those of the clock hour, this one included, exceed their limit; and how both windows stand.
   */
  lemma AnswerOnTheClock(limits: Token -> Limits, calls: seq<Call>, n: nat, minute: int, hour: int)
    requires n < |calls| && Timed(calls) && InClock(Minute, minute, calls[n].now) && InClock(Hour, hour, calls[n].now)
    ensures var m := CallsIn(calls, n + 1, calls[n].token, Minute, minute);
      var h := CallsIn(calls, n + 1, calls[n].token, Hour, hour);
      var l, a := limits(calls[n].token), Answer(limits, calls, n);
      && (a.allowed <==> m <= l.perMinute && h <= l.perHour) && (a.retryAfter == 0 <==> a.allowed)
      && Reads(a.minute, l.perMinute, m, (minute + 1) * 60) && Reads(a.hour, l.perHour, h, (hour + 1) * 3600)
  {
    var c := calls[n];
    ClockBucket(Minute, minute, c.now);
    ClockBucket(Hour, hour, c.now);
    AnswersByCounting(limits, calls, n);
    WindowIsClock(calls, n + 1, c.token, Minute, minute);
    WindowIsClock(calls, n + 1, c.token, Hour, hour);
    DecisionReads(limits(c.token), c.now, Calls(calls, n + 1, KeyAt(c.token, Minute, c.now)),
                  Calls(calls, n + 1, KeyAt(c.token, Hour, c.now)), minute, hour);
  }

  /** How many of the first n calls were admitted in a window. */
  function Admitted(limits: Token -> Limits, calls: seq<Call>, n: nat, k: Key): nat
    requires n <= |calls|
  {
    if n == 0 then 0
    else Admitted(limits, calls, n - 1, k)
         + if InWindow(calls[n - 1], k) && Answer(limits, calls, n - 1).allowed then 1 else 0
  }

  /** No aligned minute or hour admits more than its limit. */
  lemma {:induction false} WindowBound(limits: Token -> Limits, calls: seq<Call>, n: nat, k: Key)
    requires n <= |calls| && Timed(calls)
    ensures Admitted(limits, calls, n, k) <= Calls(calls, n, k)
    ensures Admitted(limits, calls, n, k) <= Remaining(Limit(limits(k.token), k.kind), 0)
  {
    if n > 0 {
      WindowBound(limits, calls, n - 1, k);
      AnswersByCounting(limits, calls, n - 1);
    }
  }

  /** Admitted calls of a token in the half-open interval [from, from + length). */
  function AdmittedIn(limits: Token -> Limits, calls: seq<Call>, n: nat, token: Token, from: Time, length: nat): nat
    requires n <= |calls|
  {
    if n == 0 then 0
    else AdmittedIn(limits, calls, n - 1, token, from, length)
         + if calls[n - 1].token == token && from <= calls[n - 1].now < from + length
              && Answer(limits, calls, n - 1).allowed then 1 else 0
  }

  lemma {:induction false} TwoWindowsCover(limits: Token -> Limits, calls: seq<Call>, n: nat, token: Token, kind: Kind, from: Time)
    requires n <= |calls|
    ensures AdmittedIn(limits, calls, n, token, from, Width(kind))
         <= Admitted(limits, calls, n, Key(token, kind, Bucket(kind, from)))
          + Admitted(limits, calls, n, Key(token, kind, Bucket(kind, from) + 1))
  {
    if n > 0 {
      TwoWindowsCover(limits, calls, n - 1, token, kind, from);
      AtMostNextBucket(kind, from, calls[n - 1].now);
    }
  }

  lemma AtMostNextBucket(kind: Kind, from: Time, t: Time)
    ensures from <= t < from + Width(kind) ==> Bucket(kind, t) == Bucket(kind, from) || Bucket(kind, t) == Bucket(kind, from) + 1
  {}

  /** Any interval of one window's length admits at most twice that window's limit. */
  lemma SlidingBound(limits: Token -> Limits, calls: seq<Call>, token: Token, kind: Kind, from: Time)
    requires Timed(calls)
    ensures AdmittedIn(limits, calls, |calls|, token, from, Width(kind)) <= 2 * Remaining(Limit(limits(token), kind), 0)
  {
    TwoWindowsCover(limits, calls, |calls|, token, kind, from);
    WindowBound(limits, calls, |calls|, Key(token, kind, Bucket(kind, from)));
    WindowBound(limits, calls, |calls|, Key(token, kind, Bucket(kind, from) + 1));
  }

  /** m calls in the last instant of the first window of a type, and m in the first of the next. */
  function Bursts(token: Token, kind: Kind, m: nat): seq<Call> {
    seq(2 * m, i requires 0 <= i < 2 * m => Call(token, if i < m then Width(kind) - 1 else Width(kind)))
  }

  lemma BurstWindows(token: Token, kind: Kind)
    ensures Bucket(Minute, Width(kind)) == Bucket(Minute, Width(kind) - 1) + 1
    ensures Bucket(Hour, Width(kind)) == Bucket(Hour, Width(kind) - 1) + if kind == Hour then 1 else 0
  {}

  /** After n calls of the bursts a window has counted those that fall in it. */
  lemma {:induction false} BurstCounts(token: Token, kind: Kind, m: nat, n: nat, k: Key)
    requires n <= 2 * m
    ensures Calls(Bursts(token, kind, m), n, k)
         == (if KeyAt(token, k.kind, Width(kind) - 1) == k then (if n < m then n else m) else 0)
          + (if KeyAt(token, k.kind, Width(kind)) == k && n > m then n - m else 0)
  {
    if n > 0 {
      BurstCounts(token, kind, m, n - 1, k);
    }
  }

  lemma BurstAdmitted(limits: Token -> Limits, token: Token, kind: Kind, m: nat, i: nat)
    requires i < 2 * m && m <= limits(token).perMinute && (if kind == Minute then 2 * m else m) <= limits(token).perHour
    ensures Answer(limits, Bursts(token, kind, m), i).allowed
  {
    var calls := Bursts(token, kind, m);
    AnswersByCounting(limits, calls, i);
    BurstWindows(token, kind);
    BurstCounts(token, kind, m, i + 1, KeyAt(token, Minute, calls[i].now));
    BurstCounts(token, kind, m, i + 1, KeyAt(token, Hour, calls[i].now));
  }

  lemma OneMoreAdmitted(limits: Token -> Limits, calls: seq<Call>, n: nat, token: Token, from: Time, length: nat)
    requires n < |calls| && calls[n].token == token && from <= calls[n].now < from + length && Answer(limits, calls, n).allowed
    ensures AdmittedIn(limits, calls, n + 1, token, from, length) == AdmittedIn(limits, calls, n, token, from, length) + 1
  {}

  lemma {:induction false} BurstsCounted(limits: Token -> Limits, token: Token, kind: Kind, m: nat, n: nat)
    requires n <= 2 * m && m <= limits(token).perMinute && (if kind == Minute then 2 * m else m) <= limits(token).perHour
    ensures AdmittedIn(limits, Bursts(token, kind, m), n, token, Width(kind) - 1, Width(kind)) == n
  {
    if n > 0 {
      BurstsCounted(limits, token, kind, m, n - 1);
      BurstAdmitted(limits, token, kind, m, n - 1);
      OneMoreAdmitted(limits, Bursts(token, kind, m), n - 1, token, Width(kind) - 1, Width(kind));
    }
  }

  /**
   * Twice the limit is reached, by a burst on each side of a boundary, for every limit of either
   * type where the other type's limit leaves room for the bursts.
   */
  lemma SlidingBoundIsTight(limits: Token -> Limits, token: Token, kind: Kind) returns (calls: seq<Call>)
    requires limits(token).perMinute >= 0 && limits(token).perHour >= 0
    requires if kind == Minute then 2 * limits(token).perMinute <= limits(token).perHour
             else limits(token).perHour <= limits(token).perMinute
    ensures Timed(calls)
    ensures AdmittedIn(limits, calls, |calls|, token, Width(kind) - 1, Width(kind)) == 2 * Limit(limits(token), kind)
  {
    var m := Limit(limits(token), kind);
    calls := Bursts(token, kind, m);
    BurstsCounted(limits, token, kind, m, 2 * m);
  }

  /**
   * The advised wait is the least number of whole seconds after which the blocking window,
   * the hour's when both are over, has rolled over.
   */
  lemma RetryAfterIsLeast(limits: Limits, now: Time, minuteCount: int, hourCount: int, secs: int)
    requires !Decide(limits, now, minuteCount, hourCount).allowed
    ensures
      var blocking := if hourCount > limits.perHour then Hour else Minute;
      var r := Decide(limits, now, minuteCount, hourCount);
      && r.retryAfter >= 1
      && (secs >= r.retryAfter <==> Bucket(blocking, now + secs * SECOND) > Bucket(blocking, now))
  {}
}
