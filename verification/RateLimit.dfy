/** Fixed-window rate limiting over the shared store (`app/cache/rate_limit.py`). */
module RateLimit {
  import opened Common
  import opened TtlStore

  /** A subject's counter as the store holds it. */
  datatype Window = NoWindow | Window(expires: Instant, count: int)

  datatype Decision = Decision(allowed: bool, limit: int, remaining: int, retryAfterSeconds: int)

  function WindowAt<T>(data: map<string, Entry<T>>, key: string, now: Instant): Window {
    var entry := Live(data, key, now);
    if entry.Some? && entry.value.value.Count? then Window(entry.value.expires, entry.value.value.count) else NoWindow
  }

  function AfterHit(w: Window, now: Instant, length: nat): Window {
    if w.NoWindow? || w.expires <= now then Window(now + length, 1) else Window(w.expires, w.count + 1)
  }

  /** Microseconds to the nearest millisecond, halves to even. */
  function RoundToMs(us: nat): nat {
    var q, r := us / 1000, us % 1000;
    if r < 500 || (r == 500 && q % 2 == 0) then q else q + 1
  }

  function RetryAfter(us: nat): nat {
    var seconds := (RoundToMs(us) + 999) / 1000;
    if seconds < 1 then 1 else seconds
  }

  function Decide(w: Window, limit: int, now: Instant): Decision
    requires w.Window? && now <= w.expires
  {
    var allowed := w.count <= limit;
    Decision(
      allowed, limit,
      if limit > w.count then limit - w.count else 0,
      if allowed then 0 else RetryAfter(w.expires - now))
  }

  function KeyOf(subject: string): string {
    "cl:ratelimit:" + subject
  }

  /** From `now` on the store holds exactly this counter: nothing once its window has expired. */
  ghost predicate Holds<T(!new)>(data: map<string, Entry<T>>, key: string, w: Window, now: Instant) {
    forall t :: t >= now ==>
      Live(data, key, t) == if w.Window? && t < w.expires then Some(Entry(Count(w.count), w.expires)) else None
  }

  class RateLimiter<T(!new)> {
    const store: MemoryStore<T>
    const length: nat

    constructor (store: MemoryStore<T>, length: nat)
      ensures this.store == store && this.length == length
    {
      this.store, this.length := store, length;
    }

    /** Count one request; only this subject's counter changes, for as long as its window lasts, and it decides. */
    method Hit(subject: string, limit: int, now: Instant) returns (d: Decision)
      requires var e := Live(store.data, KeyOf(subject), now); e.Some? ==> e.value.value.Count?
      modifies store
      ensures forall k, t :: t >= now && k != KeyOf(subject) ==> Live(store.data, k, t) == Live(old(store.data), k, t)
      ensures var w := AfterHit(WindowAt(old(store.data), KeyOf(subject), now), now, length);
              d == Decide(w, limit, now) && Holds(store.data, KeyOf(subject), w, now)
      ensures var before := Live(old(store.data), KeyOf(subject), now);
              var count := if before.None? then 1 else before.value.value.count + 1;
              var expires := if before.None? then now + length else before.value.expires;
              && Holds(store.data, KeyOf(subject), Window(expires, count), now)
              && d.limit == limit && (d.allowed <==> count <= limit)
              && (d.allowed ==> d.remaining + count == limit && d.retryAfterSeconds == 0)
              && (!d.allowed ==> d.remaining == 0 && d.retryAfterSeconds == RetryAfter(expires - now))
    {
      var r := store.Increment(KeyOf(subject), length, now);
      var count, left := r.value.0, r.value.1;
      var allowed := count <= limit;
      var remaining := if limit - count > 0 then limit - count else 0;
      d := Decision(allowed, limit, remaining, if allowed then 0 else RetryAfter(left));
    }

    /** A whole run of one subject: each hit is allowed as `After` says, however the windows follow each other. */
    method HitAll(subject: string, limit: int, times: seq<Instant>) returns (allowed: seq<bool>)
      requires NonDecreasing(times) && length > 0
      requires times != [] ==> Holds(store.data, KeyOf(subject), NoWindow, times[0])
      modifies store
      ensures |allowed| == |times|
      ensures forall i :: 0 <= i < |times| ==> (allowed[i] <==> LastAllowed(times[..i + 1], length, limit))
      ensures times != [] ==> Holds(store.data, KeyOf(subject), After(times, length), times[|times| - 1])
      ensures limit >= 1 ==> forall from :: AllowedCount(times, allowed, length, from) <= 2 * limit - 1
    {
      allowed := [];
      for i := 0 to |times|
        invariant |allowed| == i
        invariant forall j :: 0 <= j < i ==> (allowed[j] <==> LastAllowed(times[..j + 1], length, limit))
        invariant i < |times| ==> Holds(store.data, KeyOf(subject), After(times[..i], length), times[i])
        invariant 0 < i ==> Holds(store.data, KeyOf(subject), After(times[..i], length), times[i - 1])
      {
        var d := Hit(subject, limit, times[i]);
        assert times[..i + 1][..i] == times[..i];
        allowed := allowed + [d.allowed];
      }
      assert times[..|times|] == times;
      forall from | limit >= 1 ensures AllowedCount(times, allowed, length, from) <= 2 * limit - 1 {
        AllowedCountIs(times, allowed, length, limit, from);
        RateLimitBound(times, length, limit, from);
      }
    }
  }

  lemma QuotientIs(n: nat, q: nat, r: nat)
    requires r < 1000 && n == 1000 * q + r
    ensures n / 1000 == q && n % 1000 == r
  {
  }

  lemma RetryAfterSplit(s: nat, q: nat, r: nat)
    requires q < 1000 && r < 1000
    ensures var m := if r < 500 || (r == 500 && q % 2 == 0) then q else q + 1;
            RetryAfter(1_000_000 * s + 1000 * q + r) == (if m == 0 then (if s == 0 then 1 else s) else s + 1)
  {
    var us := 1_000_000 * s + 1000 * q + r;
    QuotientIs(us, 1000 * s + q, r);
    assert (1000 * s + q) % 2 == q % 2;
    var m := if r < 500 || (r == 500 && q % 2 == 0) then q else q + 1;
    assert RoundToMs(us) == 1000 * s + m;
    if m == 0 {
      QuotientIs(1000 * s + 999, s, 999);
    } else {
      QuotientIs(1000 * s + m + 999, s + 1, m - 1);
    }
  }

  /**
   A client that waits `Retry-After` seconds meets a new window, except when the rounding to
   milliseconds dropped up to half a millisecond above a whole number of seconds.
   */
  lemma RetryAfterReachesReset(us: nat)
    ensures us <= RetryAfter(us) * 1_000_000 <==> !(us > 1_000_000 && 0 < us % 1_000_000 <= 500)
  {
    var s, rest := us / 1_000_000, us % 1_000_000;
    var q, r := rest / 1000, rest % 1000;
    RetryAfterSplit(s, q, r);
  }

  // ----- what a run allows -----

  predicate NonDecreasing(times: seq<Instant>) {
    forall i, j :: 0 <= i < j < |times| ==> times[i] <= times[j]
  }

  /** The counter after hits at these times. */
  function After(times: seq<Instant>, length: nat): Window {
    if times == [] then NoWindow else AfterHit(After(times[..|times| - 1], length), times[|times| - 1], length)
  }

  /** Whether the last of these hits is allowed. */
  predicate LastAllowed(times: seq<Instant>, length: nat, limit: int)
    requires times != []
  {
    After(times, length).count <= limit
  }

  /** Allowed hits at instants of [from, from + length). */
  function AllowedIn(times: seq<Instant>, length: nat, limit: int, from: Instant): nat {
    if times == [] then 0
    else
      var t := times[|times| - 1];
      AllowedIn(times[..|times| - 1], length, limit, from) +
      if from <= t < from + length && LastAllowed(times, length, limit) then 1 else 0
  }

  /** The same count, from the decisions that were given. */
  function AllowedCount(times: seq<Instant>, allowed: seq<bool>, length: nat, from: Instant): nat
    requires |times| == |allowed|
  {
    if times == [] then 0
    else
      var n := |times| - 1;
      AllowedCount(times[..n], allowed[..n], length, from) +
      if from <= times[n] < from + length && allowed[n] then 1 else 0
  }

  lemma {:induction false} AllowedCountIs(
    times: seq<Instant>, allowed: seq<bool>, length: nat, limit: int, from: Instant)
    requires |times| == |allowed|
    requires forall i :: 0 <= i < |times| ==> (allowed[i] <==> LastAllowed(times[..i + 1], length, limit))
    ensures AllowedCount(times, allowed, length, from) == AllowedIn(times, length, limit, from)
  {
    if times != [] {
      var n := |times| - 1;
      forall i | 0 <= i < n ensures allowed[..n][i] <==> LastAllowed(times[..n][..i + 1], length, limit) {
        assert times[..n][..i + 1] == times[..i + 1];
      }
      AllowedCountIs(times[..n], allowed[..n], length, limit, from);
      assert times[..n + 1] == times;
    }
  }

  /** Allowed hits of the window that opened at `start`. */
  function AllowedOfWindow(times: seq<Instant>, length: nat, limit: int, start: Instant): nat {
    if times == [] then 0
    else
      AllowedOfWindow(times[..|times| - 1], length, limit, start) +
      if After(times, length).expires == start + length && LastAllowed(times, length, limit) then 1 else 0
  }

  function Min(a: int, b: int): int { if a < b then a else b }

  /** What the counter says about the hits so far. */
  lemma {:induction false} WindowHoldsLast(times: seq<Instant>, length: nat)
    requires NonDecreasing(times) && length > 0
    ensures times == [] ==> After(times, length).NoWindow?
    ensures times != [] ==>
              && After(times, length).Window? && After(times, length).count >= 1
              && After(times, length).expires - length <= times[|times| - 1] < After(times, length).expires
  {
    if times != [] {
      WindowHoldsLast(times[..|times| - 1], length);
    }
  }

  lemma {:induction false} NoneYet(times: seq<Instant>, length: nat, limit: int, from: Instant)
    requires NonDecreasing(times) && (times != [] ==> times[|times| - 1] < from)
    ensures AllowedIn(times, length, limit, from) == 0
  {
    if times != [] {
      NoneYet(times[..|times| - 1], length, limit, from);
    }
  }

  /** The bound, by where the current window starts relative to the interval. */
  lemma {:induction false} AllowedBound(times: seq<Instant>, length: nat, limit: int, from: Instant)
    requires NonDecreasing(times) && length > 0 && limit >= 1 && times != []
    ensures var w := After(times, length);
            var start, n := w.expires - length, AllowedIn(times, length, limit, from);
            && (start < from ==> n <= Min(w.count, limit) - 1)
            && (start == from ==> n <= Min(w.count, limit))
            && (from < start < from + length ==> n <= limit - 1 + Min(w.count, limit))
            && (start >= from + length ==> n <= 2 * limit - 1)
  {
    var init, t := times[..|times| - 1], times[|times| - 1];
    WindowHoldsLast(init, length);
    WindowHoldsLast(times, length);
    if init != [] {
      AllowedBound(init, length, limit, from);
      if init[|init| - 1] < from {
        NoneYet(init, length, limit, from);
      }
    }
  }

  /**
   No half-open interval one window long contains more than 2 * limit - 1 allowed hits: across a
   boundary, the earlier window's opening hit lies before the interval or the later window after it.
   */
  lemma RateLimitBound(times: seq<Instant>, length: nat, limit: int, from: Instant)
    requires NonDecreasing(times) && length > 0
    ensures limit >= 1 ==> AllowedIn(times, length, limit, from) <= 2 * limit - 1
    ensures limit < 1 ==> AllowedIn(times, length, limit, from) == 0
  {
    if limit >= 1 && times != [] {
      AllowedBound(times, length, limit, from);
    } else {
      NothingAllowed(times, length, limit, from);
    }
  }

  lemma {:induction false} NothingAllowed(times: seq<Instant>, length: nat, limit: int, from: Instant)
    requires NonDecreasing(times) && length > 0 && (times == [] || limit < 1)
    ensures AllowedIn(times, length, limit, from) == 0
  {
    if times != [] {
      NothingAllowed(times[..|times| - 1], length, limit, from);
      WindowHoldsLast(times, length);
    }
  }

  /** Each counter window allows at most the limit. */
  lemma {:induction false} WindowBound(times: seq<Instant>, length: nat, limit: nat, start: Instant)
    requires NonDecreasing(times) && length > 0
    ensures AllowedOfWindow(times, length, limit, start) <= limit
    ensures var w := After(times, length);
            && (times == [] || w.expires < start + length ==> AllowedOfWindow(times, length, limit, start) == 0)
            && (times != [] && w.expires == start + length ==>
                  AllowedOfWindow(times, length, limit, start) <= Min(w.count, limit))
  {
    if times != [] {
      WindowBound(times[..|times| - 1], length, limit, start);
      WindowHoldsLast(times[..|times| - 1], length);
      WindowHoldsLast(times, length);
    }
  }

  // ----- the bound is attained -----

  function Repeat(n: nat, t: Instant): seq<Instant> {
    seq(n, _ => t)
  }

  /** One opening hit, limit - 1 hits at the window's last instant, limit hits right after it. */
  function WorstCase(length: nat, limit: nat): seq<Instant>
    requires limit >= 1
  {
    [0] + Repeat(limit - 1, length - 1) + Repeat(limit, length)
  }

  lemma {:induction false} HitsWithin(times: seq<Instant>, length: nat, limit: int, from: Instant, t: Instant, n: nat)
    requires After(times, length).Window? && t < After(times, length).expires && from <= t < from + length
    requires After(times, length).count + n <= limit
    ensures After(times + Repeat(n, t), length) == After(times, length).(count := After(times, length).count + n)
    ensures AllowedIn(times + Repeat(n, t), length, limit, from) == AllowedIn(times, length, limit, from) + n
  {
    if n == 0 {
      assert times + Repeat(n, t) == times;
    } else {
      HitsWithin(times, length, limit, from, t, n - 1);
      var more := times + Repeat(n, t);
      assert more[..|more| - 1] == times + Repeat(n - 1, t);
    }
  }

  /** The opening hit lies before the interval; the rest of its window lies in it. */
  lemma FirstWindowFull(length: nat, limit: nat, window: seq<Instant>)
    requires length >= 2 && limit >= 1 && window == [0] + Repeat(limit - 1, length - 1)
    ensures After(window, length) == Window(length, limit)
    ensures AllowedIn(window, length, limit, 1) == limit - 1
  {
    var first := [0];
    assert first[..0] == [];
    assert After(first, length) == Window(length, 1) && AllowedIn(first, length, limit, 1) == 0;
    HitsWithin(first, length, limit, 1, length - 1, limit - 1);
  }

  /** A hit at the expiry opens the next window and is allowed. */
  lemma NextWindowOpens(length: nat, limit: nat, window: seq<Instant>)
    requires length >= 2 && limit >= 1 && After(window, length) == Window(length, limit)
    ensures After(window + [length], length) == Window(2 * length, 1)
    ensures AllowedIn(window + [length], length, limit, 1) == AllowedIn(window, length, limit, 1) + 1
  {
    var opening := window + [length];
    assert opening[..|opening| - 1] == window;
  }

  /** For every limit and every window of at least two instants, 2 * limit - 1 hits do get through. */
  lemma RateLimitBoundAttained(length: nat, limit: nat)
    requires length >= 2 && limit >= 1
    ensures NonDecreasing(WorstCase(length, limit))
    ensures AllowedIn(WorstCase(length, limit), length, limit, 1) == 2 * limit - 1
  {
    var window := [0] + Repeat(limit - 1, length - 1);
    FirstWindowFull(length, limit, window);
    NextWindowOpens(length, limit, window);
    HitsWithin(window + [length], length, limit, 1, length, limit - 1);
    assert window + [length] + Repeat(limit - 1, length) == WorstCase(length, limit);
  }
}
