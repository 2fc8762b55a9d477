/** The fixed-window rate limiter of src/lib/rate-limit.ts: one process-wide store of
    counters keyed by "prefix:identifier", limiters that share it, the client fingerprint
    and the rate-limit response headers. Every read of the wall clock (ms) is a parameter:
    `now` where the source reads `Date.now()` once, a `Clock` where one `check` reads it
    three times. */
module RateLimit {
  import opened Wrappers
  import opened Strings

  /** A counter and the time (ms) at which its window closes. */
  datatype Entry = Entry(count: int, resetTime: int)

  /** Whether an entry's window is still open at time `now`. */
  predicate Live(e: Entry, now: int) {
    now < e.resetTime
  }

  /** The three `Date.now()` reads of one `check`, in program order: `increment`'s own
      (line 42), the one inside `get` (line 30), and `check`'s (line 82). */
  datatype Clock = Clock(increment: int, get: int, check: int)

  /** The clock never runs backwards during a call. */
  predicate Ordered(c: Clock) {
    c.increment <= c.get <= c.check
  }

  /** The counter `increment` leaves under `key` when it reads the clock as `now` and `get`
      reads it as `seen`: the old one plus one while its window is open at `seen`, otherwise
      a fresh window holding one request and closing `windowMs` after `now`. */
  function Incremented(store: map<string, Entry>, key: string, windowMs: int, now: int, seen: int): (e: Entry)
    ensures key in store && Live(store[key], seen) ==> e == Entry(store[key].count + 1, store[key].resetTime)
    ensures !(key in store && Live(store[key], seen)) ==> e == Entry(1, now + windowMs)
  {
    if key in store && Live(store[key], seen) then Entry(store[key].count + 1, store[key].resetTime)
    else Entry(1, now + windowMs)
  }

  /** The entries `cleanup` keeps: those whose window is still open. */
  function Unexpired(store: map<string, Entry>, now: int): (r: map<string, Entry>)
    ensures forall k :: k in r <==> k in store && Live(store[k], now)
    ensures forall k :: k in r ==> r[k] == store[k]
  {
    map k | k in store && Live(store[k], now) :: store[k]
  }

  class MemoryStore {
    var store: map<string, Entry>

    constructor()
      ensures store == map[]
    {
      store := map[];
    }

    /** A lookup at or after the entry's reset time deletes it and reports it absent. */
    method Get(key: string, now: int) returns (e: Option<Entry>)
      modifies this
      ensures key !in old(store) ==> e == None && store == old(store)
      ensures key in old(store) && Live(old(store)[key], now) ==>
                e == Some(old(store)[key]) && store == old(store)
      ensures key in old(store) && !Live(old(store)[key], now) ==>
                e == None && store == old(store) - {key}
    {
      if key in store {
        var entry := store[key];
        if now >= entry.resetTime {
          store := store - {key};
          return None;
        }
        return Some(entry);
      }
      return None;
    }

    method Set(key: string, entry: Entry)
      modifies this
      ensures store == old(store)[key := entry]
    {
      store := store[key := entry];
    }

    /** Counts one request under `key`; no other key changes. `now` is this method's clock
        read and `seen` the later one inside `get`. */
    method Increment(key: string, windowMs: int, now: int, seen: int) returns (e: Entry)
      modifies this
      ensures e == Incremented(old(store), key, windowMs, now, seen)
      ensures store == old(store)[key := e]
    {
      var existing := Get(key, seen);
      if existing.Some? {
        e := Entry(existing.value.count + 1, existing.value.resetTime);
        store := store[key := e];
        return;
      }
      e := Entry(1, now + windowMs);
      store := store[key := e];
    }

    /** Deletes exactly the entries whose window has closed. */
    method Cleanup(now: int)
      modifies this
      ensures store == Unexpired(old(store), now)
    {
      var pending := store.Keys;
      while pending != {}
        invariant pending <= old(store).Keys
        invariant store == map k | k in old(store) && (k in pending || Live(old(store)[k], now)) :: old(store)[k]
        decreases pending
      {
        var k :| k in pending;
        if now >= store[k].resetTime {
          store := store - {k};
        }
        pending := pending - {k};
      }
    }

    method Destroy()
      modifies this
      ensures store == map[]
    {
      store := map[];
    }
  }

  datatype RateLimitConfig = RateLimitConfig(limit: int, windowMs: int, prefix: Option<string>)

  datatype RateLimitResult = RateLimitResult(
    success: bool, remaining: int, limit: int, reset: int, retryAfter: int)

  /** The store key of an identifier under a limiter's prefix. */
  function Key(prefix: string, identifier: string): string {
    prefix + ":" + identifier
  }

  /** What `check` reports for the incremented counter `e` at time `now`. */
  function CheckResult(limit: int, e: Entry, now: int): (r: RateLimitResult)
    ensures r.success <==> e.count <= limit
    ensures r.remaining >= 0 && r.remaining >= limit - e.count
    ensures r.remaining == 0 || r.remaining == limit - e.count
    ensures r.success ==> r.retryAfter == 0
    ensures !r.success ==> r.retryAfter == e.resetTime - now
    ensures r.limit == limit && r.reset == e.resetTime
  {
    var remaining := if limit - e.count > 0 then limit - e.count else 0;
    var success := e.count <= limit;
    RateLimitResult(success, remaining, limit, e.resetTime, if success then 0 else e.resetTime - now)
  }

  /** A limiter made by `createRateLimiter`: its configuration and the shared store. */
  class RateLimiter {
    const limit: int
    const windowMs: int
    const prefix: string
    const globalStore: MemoryStore

    constructor(config: RateLimitConfig, store: MemoryStore)
      ensures limit == config.limit && windowMs == config.windowMs
      ensures prefix == config.prefix.GetOr("rl") && globalStore == store
    {
      limit := config.limit;
      windowMs := config.windowMs;
      prefix := config.prefix.GetOr("rl");
      globalStore := store;
    }

    /** One `check`, with the three clock reads it makes. */
    method Check(identifier: string, clock: Clock) returns (r: RateLimitResult)
      modifies globalStore
      ensures var e := Incremented(old(globalStore.store), Key(prefix, identifier), windowMs, clock.increment, clock.get);
              r == CheckResult(limit, e, clock.check) &&
              globalStore.store == old(globalStore.store)[Key(prefix, identifier) := e]
    {
      var key := Key(prefix, identifier);
      var entry := globalStore.Increment(key, windowMs, clock.increment, clock.get);
      var now := clock.check;
      var remaining := if limit - entry.count > 0 then limit - entry.count else 0;
      var success := entry.count <= limit;
      var retryAfter := if success then 0 else entry.resetTime - now;
      r := RateLimitResult(success, remaining, limit, entry.resetTime, retryAfter);
    }

    method Reset(identifier: string, now: int)
      modifies globalStore
      ensures globalStore.store == old(globalStore.store)[Key(prefix, identifier) := Entry(0, now + windowMs)]
    {
      globalStore.Set(Key(prefix, identifier), Entry(0, now + windowMs));
    }
  }

  // ---------------------------------------------------------------------------
  // Properties of the counting rules
  // ---------------------------------------------------------------------------

  /** The counters after requests with the clocks `clocks`, one `increment` each, in order. */
  function AfterRequests(store: map<string, Entry>, key: string, windowMs: int, clocks: seq<Clock>): map<string, Entry>
    decreases |clocks|
  {
    if |clocks| == 0 then store
    else
      var before := AfterRequests(store, key, windowMs, clocks[..|clocks| - 1]);
      var c := clocks[|clocks| - 1];
      before[key := Incremented(before, key, windowMs, c.increment, c.get)]
  }

  /** Starting with no window for `key` open when the first request looks, the n-th request
      that looks inside the window opened by the first one sees count n; so it passes a
      `check` exactly when n <= limit. */
  lemma {:induction false} NthRequestInWindow(store: map<string, Entry>, key: string, windowMs: int, clocks: seq<Clock>, limit: int)
    requires |clocks| > 0
    requires key !in store || !Live(store[key], clocks[0].get)
    requires forall i :: 0 < i < |clocks| ==> clocks[0].increment <= clocks[i].get < clocks[0].increment + windowMs
    ensures var s := AfterRequests(store, key, windowMs, clocks);
            key in s && s[key] == Entry(|clocks|, clocks[0].increment + windowMs)
    ensures CheckResult(limit, AfterRequests(store, key, windowMs, clocks)[key], clocks[|clocks| - 1].check).success
            <==> |clocks| <= limit
    decreases |clocks|
  {
    if |clocks| > 1 {
      var prefix := clocks[..|clocks| - 1];
      NthRequestInWindow(store, key, windowMs, prefix, limit);
    }
  }

  /** Cleanup never changes what a later increment sees: it only drops closed windows. */
  lemma CleanupIsUnobservable(store: map<string, Entry>, key: string, windowMs: int, now: int, later: int, seen: int)
    requires now <= seen
    ensures Incremented(Unexpired(store, now), key, windowMs, later, seen) == Incremented(store, key, windowMs, later, seen)
  {
  }

  /** Every open window of a limiter's keys closes at most `windowMs` after `now`. */
  ghost predicate WindowsBounded(store: map<string, Entry>, prefix: string, windowMs: int, now: int) {
    forall id :: Key(prefix, id) in store ==> store[Key(prefix, id)].resetTime <= now + windowMs
  }

  /** With windows opened no later than `check`'s first clock read, an accepted check reports
      0, and a refused one asks for at most `windowMs` less the time the call itself took. The
      wait is positive unless the clock moved between the read in `get` and the one in
      `check`, or a whole window passed during the call. */
  lemma RetryAfterBounds(store: map<string, Entry>, prefix: string, id: string, limit: int, windowMs: int, c: Clock)
    requires Ordered(c) && WindowsBounded(store, prefix, windowMs, c.increment)
    ensures var r := CheckResult(limit, Incremented(store, Key(prefix, id), windowMs, c.increment, c.get), c.check);
            (r.success ==> r.retryAfter == 0) &&
            (!r.success ==> r.retryAfter <= windowMs - (c.check - c.increment)) &&
            (!r.success ==> 0 < r.retryAfter || c.get < c.check || c.check - c.increment >= windowMs)
  {
  }

  /** A refused check can report a wait of 0: the window closes between the clock read in
      `get` and the one in `check`. Then no `Retry-After` header is sent. */
  lemma RetryAfterCanBeZero()
    ensures var store := map[Key("rl", "client") := Entry(5, 100)];
            var r := CheckResult(5, Incremented(store, Key("rl", "client"), 60, 99, 99), 100);
            Ordered(Clock(99, 99, 100)) && !r.success && r.retryAfter == 0 && |RateLimitHeaders(r)| == 3
  {
  }

  /** Counting (with the same or a later clock) keeps every window within its bound. */
  lemma CheckKeepsWindowsBounded(store: map<string, Entry>, prefix: string, id: string, windowMs: int, now: int, c: Clock)
    requires WindowsBounded(store, prefix, windowMs, now) && now <= c.increment
    ensures WindowsBounded(store[Key(prefix, id) := Incremented(store, Key(prefix, id), windowMs, c.increment, c.get)],
                           prefix, windowMs, c.increment)
    ensures WindowsBounded(store[Key(prefix, id) := Entry(0, c.increment + windowMs)], prefix, windowMs, c.increment)
  {
  }

  /** After `reset`, the next request (with any clock) sees count 1, so it passes any limit >= 1. */
  lemma CheckAfterReset(store: map<string, Entry>, key: string, windowMs: int, now: int, c: Clock, limit: int)
    requires limit >= 1
    ensures var e := Incremented(store[key := Entry(0, now + windowMs)], key, windowMs, c.increment, c.get);
            e.count == 1 && CheckResult(limit, e, c.check).success
  {
  }

  /** Keys are "prefix:identifier": one limiter never mixes two identifiers, and limiters whose
      prefixes differ but have the same length (the gateway's three) never share a counter. */
  lemma KeysSeparate(p1: string, i1: string, p2: string, i2: string)
    requires |p1| == |p2|
    requires p1 != p2 || i1 != i2
    ensures Key(p1, i1) != Key(p2, i2)
  {
    var k1, k2 := Key(p1, i1), Key(p2, i2);
    if p1 != p2 {
      assert k1[..|p1|] == p1 && k2[..|p2|] == p2;
    } else {
      assert k1[|p1| + 1..] == i1 && k2[|p2| + 1..] == i2;
    }
  }

  // ---------------------------------------------------------------------------
  // Client identifier (`getClientIdentifier`)
  // ---------------------------------------------------------------------------

  const TwoTo31: int := 0x8000_0000
  const TwoTo32: int := 0x1_0000_0000

  /** JavaScript's ToInt32: wrap to a signed 32-bit value. */
  function Wrap32(x: int): (r: int)
    ensures -TwoTo31 <= r < TwoTo31
    ensures (r - x) % TwoTo32 == 0
  {
    (x + TwoTo31) % TwoTo32 - TwoTo31
  }

  /** One step of the fingerprint loop: `hash = (hash << 5) - hash + char; hash = hash & hash`. */
  function HashStep(h: int, c: char): int {
    Wrap32(Wrap32(h * 32) - h + c as int)
  }

  /** The fingerprint hash of a string, char by char from the left. */
  function StringHash(s: string): (h: int)
    ensures -TwoTo31 <= h < TwoTo31
    decreases |s|
  {
    if |s| == 0 then 0 else HashStep(StringHash(s[..|s| - 1]), s[|s| - 1])
  }

  method FingerprintHash(s: string) returns (h: int)
    ensures h == StringHash(s)
  {
    h := 0;
    var i := 0;
    while i < |s|
      invariant 0 <= i <= |s|
      invariant h == StringHash(s[..i])
    {
      assert s[..i + 1][..i] == s[..i];
      h := Wrap32(Wrap32(h * 32) - h + s[i] as int);
      i := i + 1;
    }
    assert s[..|s|] == s;
  }

  /** The text before the first comma (`v.split(",")[0]`). */
  function FirstItem(v: string): (r: string)
    ensures r <= v && ',' !in r
    decreases |v|
  {
    if |v| == 0 || v[0] == ',' then "" else [v[0]] + FirstItem(v[1..])
  }

  /** A header's value, or "" when absent (both are falsy in the source). */
  function HeaderOr(headers: map<string, string>, name: string): string {
    if name in headers then headers[name] else ""
  }

  function Abs(x: int): nat { if x < 0 then -x else x }

  /** The identifier the source derives from the request headers. */
  function ClientIdentifierOf(headers: map<string, string>): (id: string)
    ensures HeaderOr(headers, "x-forwarded-for") != "" ==>
              id == Trim(FirstItem(headers["x-forwarded-for"]))
    ensures HeaderOr(headers, "x-forwarded-for") == "" && HeaderOr(headers, "x-real-ip") != "" ==>
              id == headers["x-real-ip"]
    ensures HeaderOr(headers, "x-forwarded-for") == "" && HeaderOr(headers, "x-real-ip") == "" ==>
              "fingerprint:" <= id
  {
    var forwarded := HeaderOr(headers, "x-forwarded-for");
    var realIp := HeaderOr(headers, "x-real-ip");
    if forwarded != "" then Trim(FirstItem(forwarded))
    else if realIp != "" then realIp
    else
      var ua := if HeaderOr(headers, "user-agent") != "" then headers["user-agent"] else "unknown";
      var lang := if HeaderOr(headers, "accept-language") != "" then headers["accept-language"] else "unknown";
      "fingerprint:" + NatToRadix(Abs(StringHash(ua + lang)), 36)
  }

  method ClientIdentifier(headers: map<string, string>) returns (id: string)
    ensures id == ClientIdentifierOf(headers)
  {
    var forwarded := HeaderOr(headers, "x-forwarded-for");
    if forwarded != "" {
      return Trim(FirstItem(forwarded));
    }
    var realIp := HeaderOr(headers, "x-real-ip");
    if realIp != "" {
      return realIp;
    }
    var userAgent := HeaderOr(headers, "user-agent");
    if userAgent == "" {
      userAgent := "unknown";
    }
    var acceptLang := HeaderOr(headers, "accept-language");
    if acceptLang == "" {
      acceptLang := "unknown";
    }
    var hash := FingerprintHash(userAgent + acceptLang);
    id := "fingerprint:" + NatToRadix(Abs(hash), 36);
  }

  /** Two requests that agree on the four headers the identifier reads get the same one. */
  lemma ClientIdentifierReadsFourHeaders(h1: map<string, string>, h2: map<string, string>)
    requires forall n :: n in {"x-forwarded-for", "x-real-ip", "user-agent", "accept-language"} ==>
               HeaderOr(h1, n) == HeaderOr(h2, n)
    ensures ClientIdentifierOf(h1) == ClientIdentifierOf(h2)
  {
    assert HeaderOr(h1, "x-forwarded-for") == HeaderOr(h2, "x-forwarded-for");
    assert HeaderOr(h1, "x-real-ip") == HeaderOr(h2, "x-real-ip");
    assert HeaderOr(h1, "user-agent") == HeaderOr(h2, "user-agent");
    assert HeaderOr(h1, "accept-language") == HeaderOr(h2, "accept-language");
  }

  // ---------------------------------------------------------------------------
  // Response headers (`rateLimitHeaders`)
  // ---------------------------------------------------------------------------

  /** `Math.ceil(ms / 1000)`. */
  function CeilSeconds(ms: int): (s: int)
    ensures 1000 * (s - 1) < ms <= 1000 * s
  {
    (ms + 999) / 1000
  }

  /** The headers in the order the source lists them. */
  function RateLimitHeaders(r: RateLimitResult): (hs: seq<(string, string)>)
    ensures |hs| == if r.retryAfter > 0 then 4 else 3
    ensures hs[0] == ("X-RateLimit-Limit", IntToString(r.limit))
    ensures hs[1] == ("X-RateLimit-Remaining", IntToString(r.remaining))
    ensures hs[2] == ("X-RateLimit-Reset", IntToString(r.reset))
    ensures r.retryAfter > 0 ==> hs[3] == ("Retry-After", IntToString(CeilSeconds(r.retryAfter)))
  {
    [("X-RateLimit-Limit", IntToString(r.limit)),
     ("X-RateLimit-Remaining", IntToString(r.remaining)),
     ("X-RateLimit-Reset", IntToString(r.reset))]
    + (if r.retryAfter > 0 then [("Retry-After", IntToString(CeilSeconds(r.retryAfter)))] else [])
  }

  /** `Retry-After` is sent only with a positive wait, and it reads back as a whole number of
      seconds >= 1 that covers the wait. */
  lemma RetryAfterHeaderReadsBack(r: RateLimitResult)
    requires r.retryAfter > 0
    ensures var hs := RateLimitHeaders(r);
            hs[3].0 == "Retry-After" &&
            exists secs :: ParseDecimal(hs[3].1) == Some(secs) && secs >= 1 && r.retryAfter <= 1000 * secs
  {
    DecimalRoundTrip(CeilSeconds(r.retryAfter));
  }

  lemma NoRetryAfterWithoutWait(r: RateLimitResult)
    requires r.retryAfter <= 0
    ensures forall i :: 0 <= i < |RateLimitHeaders(r)| ==> RateLimitHeaders(r)[i].0 != "Retry-After"
  {
  }
}
