/** The bandwidth limiter (relay.go): one bucket, any number of callers, times in nanoseconds. */
module TokenBuckets {

  const NANOS: real := 1_000_000_000.0

  /** The fields of a bucket at one moment. Time is an absolute nanosecond count. */
  datatype Bucket = Bucket(rate: real, cap: real, tokens: real, last: int)

  ghost predicate Sane(b: Bucket) {
    b.rate > 0.0 && b.cap == b.rate * 1.5 && 0.0 <= b.tokens <= b.cap
  }

  /** Bytes that `rate` is worth over `ns` nanoseconds. */
  function Earned(rate: real, ns: int): real {
    (ns as real) / NANOS * rate
  }

  lemma EarnedAdds(rate: real, a: int, b: int)
    ensures Earned(rate, a) + Earned(rate, b) == Earned(rate, a + b)
  {
  }

  lemma EarnedGrows(rate: real, a: int, b: int)
    requires rate >= 0.0 && a <= b
    ensures Earned(rate, a) <= Earned(rate, b)
  {
  }

  lemma EarnedZero(rate: real)
    ensures Earned(rate, 0) == 0.0
  {
  }

  /** The tokens a call at time `now` finds. */
  function TokensAt(b: Bucket, now: int): real {
    var t := b.tokens + Earned(b.rate, now - b.last);
    if t > b.cap then b.cap else t
  }

  /** How long a call for `n` bytes at `now` is told to sleep, truncated to whole nanoseconds. */
  function SleepOf(b: Bucket, n: nat, now: int): int
    requires b.rate > 0.0
  {
    var t := TokensAt(b, now);
    if t >= n as real then 0 else ((n as real - t) / b.rate * NANOS).Floor
  }

  function After(b: Bucket, n: nat, now: int): Bucket {
    var t := TokensAt(b, now);
    b.(tokens := if t >= n as real then t - n as real else 0.0, last := now)
  }

  lemma PositiveQuotient(m: real, r: real)
    requires m >= 0.0 && r > 0.0
    ensures m / r >= 0.0
  {
  }

  /** A caller sleeps exactly as long as the tokens it misses take to earn, cut to whole nanoseconds, and not at all when
      it misses none. */
  ghost predicate JustEnough(b: Bucket, n: nat, now: int, sleep: int) {
    if TokensAt(b, now) >= n as real then sleep == 0
    else TokensAt(b, now) + Earned(b.rate, sleep) <= n as real < TokensAt(b, now) + Earned(b.rate, sleep + 1)
  }

  lemma EarnedIs(rate: real, ns: int, part: real)
    requires part == ns as real / NANOS
    ensures Earned(rate, ns) == part * rate
  {
  }

  lemma Scaled(rate: real, missing: real, x: real, y: real, z: real)
    requires rate > 0.0 && x * rate == missing && y <= x < z
    ensures y * rate <= missing < z * rate
  {
    TimesGrows(y, x, rate);
    TimesGrowsMore(x, z, rate);
  }

  lemma FloorIsBetween(rate: real, missing: real)
    requires rate > 0.0
    ensures var f := (missing / rate * NANOS).Floor; Earned(rate, f) <= missing < Earned(rate, f + 1)
  {
    var x := missing / rate;
    var f := (x * NANOS).Floor;
    var y, z := f as real / NANOS, (f + 1) as real / NANOS;
    assert y <= x < z;
    EarnedIs(rate, f, y);
    EarnedIs(rate, f + 1, z);
    Quotient(missing, rate);
    Scaled(rate, missing, x, y, z);
    hide Earned;
  }

  lemma TimesGrows(x: real, y: real, r: real)
    requires x <= y && r >= 0.0
    ensures x * r <= y * r
  {
  }

  lemma TimesGrowsMore(x: real, y: real, r: real)
    requires x < y && r > 0.0
    ensures x * r < y * r
  {
  }

  lemma Quotient(m: real, r: real)
    requires r > 0.0
    ensures m / r * r == m
  {
  }

  lemma SleepIsJustEnough(b: Bucket, n: nat, now: int)
    requires b.rate > 0.0
    ensures JustEnough(b, n, now, SleepOf(b, n, now))
  {
    FloorIsBetween(b.rate, n as real - TokensAt(b, now));
    hide Earned, TokensAt;
  }

  /** The limiter object of relay.go. Sleeping is left to the caller: `Wait` returns its length. */
  class TokenBucket {
    const rate: real
    const cap: real
    var tokens: real
    var last: int

    ghost function View(): Bucket
      reads this
    {
      Bucket(rate, cap, tokens, last)
    }

    constructor (bytesPerSec: real, now: int)
      requires bytesPerSec > 0.0
      ensures View() == Bucket(bytesPerSec, bytesPerSec * 1.5, bytesPerSec, now) && Sane(View())
    {
      rate := bytesPerSec;
      cap := bytesPerSec * 1.5;
      tokens := bytesPerSec;
      last := now;
    }

    /** `now` is read from a monotonic clock under the lock, so it never precedes `last`. */
    method Wait(n: nat, now: int) returns (sleep: int)
      requires Sane(View()) && last <= now
      modifies this
      ensures View() == After(old(View()), n, now) && Sane(View())
      ensures sleep == SleepOf(old(View()), n, now) >= 0
      ensures JustEnough(old(View()), n, now, sleep)
    {
      EarnedZero(rate);
      EarnedGrows(rate, 0, now - last);
      hide Earned;
      tokens := tokens + Earned(rate, now - last);
      if tokens > cap {
        tokens := cap;
      }
      last := now;
      var need := n as real;
      if tokens >= need {
        tokens := tokens - need;
        SleepIsJustEnough(old(View()), n, now);
        return 0;
      }
      var missing := need - tokens;
      tokens := 0.0;
      sleep := (missing / rate * NANOS).Floor;
      PositiveQuotient(missing, rate);
      SleepIsJustEnough(old(View()), n, now);
    }
  }

  // ---------- runs of several callers on one bucket ----------

  /** One completed call: who made it, when it took the lock, what it asked, when it returned. */
  datatype Call = Call(caller: nat, start: int, n: nat, end: int)

  /** The bucket after `calls`, listed in lock order. */
  ghost function Left(b: Bucket, calls: seq<Call>): (r: Bucket)
    ensures r.rate == b.rate && r.cap == b.cap
  {
    if calls == [] then b
    else
      var c := calls[|calls| - 1];
      After(Left(b, calls[..|calls| - 1]), c.n, c.start)
  }

  /** A run: lock order is time order, and nobody returns before its sleep is over. */
  ghost predicate Run(b: Bucket, calls: seq<Call>)
    requires b.rate > 0.0
  {
    calls == [] ||
    (var m := |calls| - 1;
     var before := Left(b, calls[..m]);
     && Run(b, calls[..m])
     && before.last <= calls[m].start
     && calls[m].start + SleepOf(before, calls[m].n, calls[m].start) <= calls[m].end
     && calls[m].start <= calls[m].end)
  }

  /** At most `k` callers, each of which returns from one call before it makes the next. */
  ghost predicate Callers(calls: seq<Call>, k: nat) {
    && (forall i :: 0 <= i < |calls| ==> calls[i].caller < k)
    && (forall i, j :: 0 <= i < j < |calls| && calls[i].caller == calls[j].caller
                       ==> calls[i].end <= calls[j].start)
  }

  predicate Inside(c: Call, s: int, e: int) {
    s <= c.start && c.end <= e
  }

  /** Bytes let through by the calls that start and end inside [s, e]. */
  ghost function Bytes(calls: seq<Call>, s: int, e: int): nat {
    if calls == [] then 0
    else
      var c := calls[|calls| - 1];
      Bytes(calls[..|calls| - 1], s, e) + (if Inside(c, s, e) then c.n else 0)
  }

  ghost function Count(calls: seq<Call>, s: int, e: int): nat {
    if calls == [] then 0
    else Count(calls[..|calls| - 1], s, e) + (if Inside(calls[|calls| - 1], s, e) then 1 else 0)
  }

  /** Time spent inside calls that lie in [s, e]. */
  ghost function Naps(calls: seq<Call>, s: int, e: int): int {
    if calls == [] then 0
    else
      var c := calls[|calls| - 1];
      Naps(calls[..|calls| - 1], s, e) + (if Inside(c, s, e) then c.end - c.start else 0)
  }

  ghost function Max(a: int, b: int): int { if a < b then b else a }

  lemma TokensGrowSlowly(b: Bucket, t: int, u: int)
    requires b.rate > 0.0 && t <= u
    ensures TokensAt(b, u) <= TokensAt(b, t) + Earned(b.rate, u - t)
    ensures TokensAt(b, t) <= TokensAt(b, u)
  {
    EarnedAdds(b.rate, t - b.last, u - t);
    EarnedGrows(b.rate, 0, u - t);
  }

  lemma AfterIsSane(b: Bucket, n: nat, now: int)
    requires Sane(b) && b.last <= now
    ensures Sane(After(b, n, now))
  {
  }

  lemma {:induction false} LeftIsSane(b: Bucket, calls: seq<Call>)
    requires Sane(b) && Run(b, calls)
    ensures Sane(Left(b, calls)) && b.last <= Left(b, calls).last
  {
    if calls != [] {
      var m := |calls| - 1;
      LeftIsSane(b, calls[..m]);
      AfterIsSane(Left(b, calls[..m]), calls[m].n, calls[m].start);
    }
  }

  /** What one call lets through is paid by tokens, by its sleep, and by less than one nanosecond lost to truncation. */
  lemma CallIsPaid(b: Bucket, n: nat, now: int, end: int)
    requires Sane(b) && b.last <= now && now + SleepOf(b, n, now) <= end && now <= end
    ensures n as real + After(b, n, now).tokens
            <= TokensAt(b, now) + Earned(b.rate, end - now) + Earned(b.rate, 1)
  {
    var t := TokensAt(b, now);
    EarnedGrows(b.rate, 0, end - now);
    EarnedGrows(b.rate, 0, 1);
    if t < n as real {
      var missing := n as real - t;
      var sleep := SleepOf(b, n, now);
      SleepIsJustEnough(b, n, now);
      assert missing <= Earned(b.rate, sleep + 1);
      EarnedAdds(b.rate, end - now, 1);
      EarnedGrows(b.rate, sleep + 1, end - now + 1);
      assert missing <= Earned(b.rate, end - now) + Earned(b.rate, 1);
      assert After(b, n, now).tokens == 0.0;
    }
  }

  /** A call before the window only lowers what the window will find. */
  lemma EarlyCall(b: Bucket, n: nat, now: int, s: int)
    requires Sane(b) && b.last <= now <= s
    ensures TokensAt(After(b, n, now), s) <= TokensAt(b, s)
  {
    EarnedAdds(b.rate, now - b.last, s - now);
    EarnedGrows(b.rate, 0, s - now);
    EarnedGrows(b.rate, 0, now - b.last);
  }

  /** The budget: what is let through plus what is left never exceeds what was there, earned or slept for. */
  ghost predicate Budget(l: Bucket, s: int, e: int, base: real, bytes: nat, naps: int, count: nat) {
    var r := l.rate;
    var at := Max(l.last, s);
    && (bytes as real <= base + Earned(r, e - s) + Earned(r, naps) + Earned(r, count))
    && (at <= e ==> bytes as real + TokensAt(l, at) <= base + Earned(r, at - s) + Earned(r, naps) + Earned(r, count))
  }

  lemma {:induction false} BudgetHolds(b: Bucket, calls: seq<Call>, s: int, e: int, base: real)
    requires Sane(b) && Run(b, calls) && s <= e
    requires TokensAt(b, Max(b.last, s)) <= base && b.last <= s && 0.0 <= base
    ensures Budget(Left(b, calls), s, e, base, Bytes(calls, s, e), Naps(calls, s, e), Count(calls, s, e))
  {
    if calls == [] {
      EarnedZero(b.rate);
      EarnedGrows(b.rate, 0, e - s);
    } else {
      var m := |calls| - 1;
      var pre, c := calls[..m], calls[m];
      BudgetHolds(b, pre, s, e, base);
      LeftIsSane(b, pre);
      var l := Left(b, pre);
      if c.start < s {
        EarlyCallFits(l, c, s, e, base, Bytes(pre, s, e), Naps(pre, s, e), Count(pre, s, e));
      } else if c.start <= e {
        CallFits(l, c, s, e, base, Bytes(pre, s, e), Naps(pre, s, e), Count(pre, s, e));
      }
    }
  }

  lemma EarlyCallFits(l: Bucket, c: Call, s: int, e: int, base: real, bytes: nat, naps: int, count: nat)
    requires Sane(l) && l.last <= c.start < s <= e && Budget(l, s, e, base, bytes, naps, count)
    ensures Budget(After(l, c.n, c.start), s, e, base, bytes, naps, count)
  {
    EarlyCall(l, c.n, c.start, s);
  }

  /** A call that starts inside the window, whether or not it also ends inside. */
  lemma CallFits(l: Bucket, c: Call, s: int, e: int, base: real, bytes: nat, naps: int, count: nat)
    requires Sane(l) && l.last <= c.start && s <= c.start <= e && c.start <= c.end
    requires c.start + SleepOf(l, c.n, c.start) <= c.end
    requires Budget(l, s, e, base, bytes, naps, count)
    ensures Budget(After(l, c.n, c.start), s, e, base, bytes, naps, count)
    ensures c.end <= e ==> Budget(After(l, c.n, c.start), s, e, base, bytes + c.n, naps + (c.end - c.start), count + 1)
  {
    var r, at := l.rate, Max(l.last, s);
    TokensGrowSlowly(l, at, c.start);
    EarnedAdds(r, at - s, c.start - at);
    EarnedGrows(r, c.start - s, e - s);
    EarnedZero(r);
    CallIsPaid(l, c.n, c.start, c.end);
    EarnedAdds(r, naps, c.end - c.start);
    EarnedAdds(r, count, 1);
    CallSpends(l, c.n, c.start);
  }

  lemma CallSpends(l: Bucket, n: nat, now: int)
    requires Sane(l) && l.last <= now
    ensures var l' := After(l, n, now); TokensAt(l', now) == l'.tokens && 0.0 <= l'.tokens <= TokensAt(l, now)
  {
  }

  // ---------- k sequential callers sleep at most k times the window ----------

  ghost function NapsOf(calls: seq<Call>, who: nat, s: int, e: int): int {
    if calls == [] then 0
    else
      var c := calls[|calls| - 1];
      NapsOf(calls[..|calls| - 1], who, s, e)
      + (if c.caller == who && Inside(c, s, e) then c.end - c.start else 0)
  }

  ghost function NapsBelow(calls: seq<Call>, k: nat, s: int, e: int): int {
    if k == 0 then 0 else NapsBelow(calls, k - 1, s, e) + NapsOf(calls, k - 1, s, e)
  }

  lemma {:induction false} OneMoreNap(calls: seq<Call>, k: nat, s: int, e: int)
    requires calls != []
    ensures NapsBelow(calls, k, s, e)
         == NapsBelow(calls[..|calls| - 1], k, s, e)
            + (var c := calls[|calls| - 1]; if c.caller < k && Inside(c, s, e) then c.end - c.start else 0)
  {
    if k > 0 { OneMoreNap(calls, k - 1, s, e); }
  }

  lemma {:induction false} NoNapsYet(k: nat, s: int, e: int)
    ensures NapsBelow([], k, s, e) == 0
  {
    if k > 0 { NoNapsYet(k - 1, s, e); }
  }

  lemma {:induction false} NapsSplit(calls: seq<Call>, k: nat, s: int, e: int)
    requires Callers(calls, k)
    ensures Naps(calls, s, e) == NapsBelow(calls, k, s, e)
  {
    if calls == [] {
      NoNapsYet(k, s, e);
    } else {
      NapsSplit(calls[..|calls| - 1], k, s, e);
      OneMoreNap(calls, k, s, e);
    }
  }

  /** Calls of one caller are disjoint in time; `bound` is where the next one may begin. */
  lemma {:induction false} NapsOfOne(calls: seq<Call>, k: nat, who: nat, s: int, e: int, bound: int)
    requires Callers(calls, k) && s <= bound
    requires forall i :: 0 <= i < |calls| ==> calls[i].start <= calls[i].end
    requires forall i :: 0 <= i < |calls| && calls[i].caller == who && Inside(calls[i], s, e) ==> calls[i].end <= bound
    ensures NapsOf(calls, who, s, e) <= bound - s
  {
    if calls != [] {
      var m := |calls| - 1;
      var c := calls[m];
      if c.caller == who && Inside(c, s, e) {
        NapsOfOne(calls[..m], k, who, s, e, c.start);
      } else {
        NapsOfOne(calls[..m], k, who, s, e, bound);
      }
    }
  }

  lemma {:induction false} NapsBelowBound(calls: seq<Call>, k: nat, j: nat, s: int, e: int)
    requires Callers(calls, k) && s <= e
    requires forall i :: 0 <= i < |calls| ==> calls[i].start <= calls[i].end
    ensures NapsBelow(calls, j, s, e) <= j * (e - s)
  {
    if j > 0 {
      NapsBelowBound(calls, k, j - 1, s, e);
      NapsOfOne(calls, k, j - 1, s, e, e);
      assert j * (e - s) == (j - 1) * (e - s) + (e - s);
    }
  }

  lemma {:induction false} RunEnds(b: Bucket, calls: seq<Call>)
    requires b.rate > 0.0 && Run(b, calls)
    ensures forall i :: 0 <= i < |calls| ==> calls[i].start <= calls[i].end
  {
    if calls != [] { RunEnds(b, calls[..|calls| - 1]); }
  }

  lemma NapsBound(b: Bucket, calls: seq<Call>, k: nat, s: int, e: int)
    requires b.rate > 0.0 && Run(b, calls) && Callers(calls, k) && s <= e
    ensures Naps(calls, s, e) <= k * (e - s)
  {
    RunEnds(b, calls);
    NapsSplit(calls, k, s, e);
    NapsBelowBound(calls, k, k, s, e);
  }

  // ---------- the bounds ----------

  ghost predicate NewAt(b: Bucket, t0: int) {
    b.rate > 0.0 && b.cap == b.rate * 1.5 && b.tokens == b.rate && b.last == t0
  }

  /** From creation: rate + (k+1) rate T, up to one nanosecond's worth per call. */
  lemma BytesSinceCreation(b: Bucket, calls: seq<Call>, k: nat, t0: int, t: int)
    requires NewAt(b, t0) && Run(b, calls) && Callers(calls, k) && t0 <= t
    ensures Bytes(calls, t0, t) as real
            <= b.rate + Earned(b.rate, (k + 1) * (t - t0)) + Earned(b.rate, Count(calls, t0, t))
  {
    EarnedZero(b.rate);
    assert TokensAt(b, t0) == b.tokens;
    BudgetHolds(b, calls, t0, t, b.rate);
    NapsBound(b, calls, k, t0, t);
    var d := t - t0;
    EarnedGrows(b.rate, Naps(calls, t0, t), k * d);
    EarnedAdds(b.rate, d, k * d);
    assert (k + 1) * d == d + k * d;
  }

  /** In any window: cap + (k+1) rate length, for the calls that start and end inside it. */
  lemma BytesInWindow(b: Bucket, calls: seq<Call>, k: nat, s: int, e: int)
    requires Sane(b) && Run(b, calls) && Callers(calls, k) && b.last <= s <= e
    ensures Bytes(calls, s, e) as real
            <= b.cap + Earned(b.rate, (k + 1) * (e - s)) + Earned(b.rate, Count(calls, s, e))
  {
    BudgetHolds(b, calls, s, e, b.cap);
    NapsBound(b, calls, k, s, e);
    var d := e - s;
    EarnedGrows(b.rate, Naps(calls, s, e), k * d);
    EarnedAdds(b.rate, d, k * d);
    assert (k + 1) * d == d + k * d;
  }

  // ---------- what callers get at least ----------

  /** A run in which everybody returns as soon as its sleep is over. */
  ghost predicate Prompt(b: Bucket, calls: seq<Call>)
    requires b.rate > 0.0
  {
    calls == [] ||
    (var m := |calls| - 1;
     var before := Left(b, calls[..m]);
     && Prompt(b, calls[..m])
     && before.last <= calls[m].start && calls[m].end == calls[m].start + SleepOf(before, calls[m].n, calls[m].start))
  }

  ghost function Total(calls: seq<Call>): nat {
    if calls == [] then 0 else Total(calls[..|calls| - 1]) + calls[|calls| - 1].n
  }

  ghost function Slept(calls: seq<Call>): int {
    if calls == [] then 0
    else Slept(calls[..|calls| - 1]) + (calls[|calls| - 1].end - calls[|calls| - 1].start)
  }

  /** Tokens earned beyond the capacity, which are lost. */
  ghost function Lost(b: Bucket, calls: seq<Call>): real {
    if calls == [] then 0.0
    else
      var m := |calls| - 1;
      var before := Left(b, calls[..m]);
      Lost(b, calls[..m]) + Spilled(before, calls[m].start)
  }

  function Spilled(b: Bucket, now: int): real {
    b.tokens + Earned(b.rate, now - b.last) - TokensAt(b, now)
  }

  lemma SleepIsNotNegative(b: Bucket, n: nat, now: int)
    requires b.rate > 0.0
    ensures SleepOf(b, n, now) >= 0
  {
    if TokensAt(b, now) < n as real { PositiveQuotient(n as real - TokensAt(b, now), b.rate); }
    hide TokensAt;
  }

  lemma {:induction false} PromptIsRun(b: Bucket, calls: seq<Call>)
    requires b.rate > 0.0 && Prompt(b, calls)
    ensures Run(b, calls)
  {
    if calls != [] {
      var m := |calls| - 1;
      PromptIsRun(b, calls[..m]);
      SleepIsNotNegative(Left(b, calls[..m]), calls[m].n, calls[m].start);
      hide SleepOf;
    }
  }

  /** One prompt call: bytes and tokens left are the tokens found and those earned in the sleep, up to one nanosecond's. */
  lemma CallIsEven(b: Bucket, n: nat, now: int)
    requires Sane(b)
    ensures var paid := TokensAt(b, now) + Earned(b.rate, SleepOf(b, n, now)) - After(b, n, now).tokens;
            paid <= n as real <= paid + Earned(b.rate, 1)
  {
    SleepIsJustEnough(b, n, now);
    EarnedZero(b.rate);
    EarnedGrows(b.rate, 0, 1);
    EarnedAdds(b.rate, SleepOf(b, n, now), 1);
    hide Earned, TokensAt;
  }

  lemma NothingSpilled(b: Bucket, now: int)
    ensures Spilled(b, now) >= 0.0
  {
    hide Earned;
  }

  /** Conservation of tokens: in any run in which callers return when their sleep is over, the bytes let through are what
      the bucket held and earned, and what was earned again in the sleeps, less what it holds at the end and what spilled
      over its capacity. Truncation gives away at most one nanosecond's worth per call. */
  lemma {:induction false} TokensAreConserved(b: Bucket, calls: seq<Call>)
    requires Sane(b) && Prompt(b, calls)
    ensures var l, r := Left(b, calls), b.rate;
            var paid := b.tokens + Earned(r, l.last - b.last) + Earned(r, Slept(calls)) - Lost(b, calls) - l.tokens;
            paid <= Total(calls) as real <= paid + Earned(r, |calls|)
    ensures Lost(b, calls) >= 0.0
  {
    var r := b.rate;
    EarnedZero(r);
    if calls != [] {
      var m := |calls| - 1;
      var pre, c := calls[..m], calls[m];
      var l := Left(b, pre);
      TokensAreConserved(b, pre);
      PromptIsRun(b, pre);
      LeftIsSane(b, pre);
      CallIsEven(l, c.n, c.start);
      NothingSpilled(l, c.start);
      EarnedAdds(r, l.last - b.last, c.start - l.last);
      EarnedAdds(r, Slept(pre), c.end - c.start);
      EarnedAdds(r, m, 1);
      hide Earned, TokensAt, SleepOf;
      assert Left(b, calls) == After(l, c.n, c.start);
    }
  }

  ghost function Min(a: int, b: int): int { if a < b then a else b }

  /** The part of [s, e] that a call takes up. */
  ghost function Share(c: Call, s: int, e: int): int {
    Max(0, Min(e, c.end) - Max(s, c.start))
  }

  ghost function TimeOf(calls: seq<Call>, who: nat, s: int, e: int): int {
    if calls == [] then 0
    else
      var c := calls[|calls| - 1];
      TimeOf(calls[..|calls| - 1], who, s, e) + (if c.caller == who then Share(c, s, e) else 0)
  }

  /** Bytes of the calls of `who` that take up some of [s, e]. */
  ghost function BytesOf(calls: seq<Call>, who: nat, s: int, e: int): nat {
    if calls == [] then 0
    else
      var c := calls[|calls| - 1];
      BytesOf(calls[..|calls| - 1], who, s, e) + (if c.caller == who && Share(c, s, e) > 0 then c.n else 0)
  }

  lemma CallGetsTheRate(b: Bucket, n: nat, now: int)
    requires Sane(b) && b.last <= now
    ensures n as real >= Earned(b.rate, SleepOf(b, n, now))
  {
    SleepIsJustEnough(b, n, now);
    EarnedZero(b.rate);
    EarnedGrows(b.rate, 0, now - b.last);
    hide Earned;
  }

  lemma {:induction false} TimeIsWorth(b: Bucket, calls: seq<Call>, who: nat, s: int, e: int)
    requires Sane(b) && Prompt(b, calls) && s <= e
    ensures BytesOf(calls, who, s, e) as real >= Earned(b.rate, TimeOf(calls, who, s, e))
  {
    var r := b.rate;
    EarnedZero(r);
    if calls != [] {
      var m := |calls| - 1;
      var pre, c := calls[..m], calls[m];
      TimeIsWorth(b, pre, who, s, e);
      PromptIsRun(b, pre);
      LeftIsSane(b, pre);
      CallGetsTheRate(Left(b, pre), c.n, c.start);
      SleepIsNotNegative(Left(b, pre), c.n, c.start);
      EarnedAdds(r, TimeOf(pre, who, s, e), Share(c, s, e));
      EarnedGrows(r, Share(c, s, e), c.end - c.start);
      hide Earned, SleepOf;
    }
  }

  /** A caller that is inside a call during the whole window, and returns when its sleep is over, gets at least what the
      rate is worth over the window, however many others share the bucket. */
  lemma BackloggedGetsTheRate(b: Bucket, calls: seq<Call>, who: nat, s: int, e: int)
    requires Sane(b) && Prompt(b, calls) && s <= e && TimeOf(calls, who, s, e) == e - s
    ensures BytesOf(calls, who, s, e) as real >= Earned(b.rate, e - s)
  {
    TimeIsWorth(b, calls, who, s, e);
  }

  // ---------- the bound from creation is attained, by reads of any given size ----------

  /** `m` times `round`, counted without a product of two unknowns. */
  ghost function Times(m: nat, round: nat): nat {
    if m == 0 then 0 else Times(m - 1, round) + round
  }

  lemma {:induction false} TimesIsProduct(m: nat, round: nat)
    ensures Times(m, round) == m * round
  {
    if m > 0 {
      TimesIsProduct(m - 1, round);
      assert m * round == (m - 1) * round + round;
    }
  }

  /** A bucket of `w` reads of `q` bytes a second: a read of `q` is worth `d` nanoseconds. */
  ghost predicate Steady(q: nat, w: nat, d: nat) {
    q >= 1 && w >= 1 && d * w == 1_000_000_000
  }

  ghost function FreshBucket(q: nat, w: nat): Bucket {
    var rate := Times(w, q) as real;
    Bucket(rate, rate * 1.5, rate, 0)
  }

  /** `j` reads of `q` at once, which spend what a new bucket holds. */
  ghost function Drain(q: nat, j: nat): seq<Call> {
    if j == 0 then [] else Drain(q, j - 1) + [Call(0, 0, q, 0)]
  }

  /** A new bucket is drained; then, in rounds of `d` nanoseconds, each of the `k` callers sleeps on one read, and when
      they wake caller 0 spends what has been credited meanwhile. This is `m` rounds and the first `j` calls of the next. */
  ghost function Greedy(q: nat, w: nat, d: nat, k: nat, m: nat, j: nat): seq<Call>
    decreases m, j
  {
    if j > 0 then Greedy(q, w, d, k, m, j - 1) + [GreedyCall(q, d, k, m, j - 1)]
    else if m > 0 then Greedy(q, w, d, k, m - 1, k + 1)
    else Drain(q, w)
  }

  ghost function GreedyCall(q: nat, d: nat, k: nat, m: nat, who: nat): Call {
    if who < k then Call(who, Times(m, d), q, Times(m + 1, d)) else Call(0, Times(m + 1, d), q, Times(m + 1, d))
  }

  lemma PartOfProduct(w: nat, q: nat)
    requires w >= 1 && q >= 1
    ensures Times(w, q) >= q
  {
    TimesIsProduct(w - 1, q);
  }

  lemma SameFactor(x: real, y: real, a: real)
    requires a != 0.0 && x * a == y * a
    ensures x == y
  {
    assert (x - y) * a == 0.0;
  }

  lemma SameProduct(a: real, x: real, y: real)
    requires x == y
    ensures a * x == y * a
  {
  }

  lemma Reorder(x: real, y: real, z: real)
    ensures x * y * z == x * (y * z) == z * (x * y) == y * (x * z)
  {
  }

  lemma UnitShare(b: real, d: real, n: real)
    requires n > 0.0 && d * b == n
    ensures d / n * b == 1.0
  {
    var y := d / n;
    Quotient(d, n);
    Reorder(y, b, n);
    SameProduct(b, y * n, d);
    SameFactor(y * b, 1.0, n);
  }

  /** `a` bytes at `b * a` bytes a second take `d` of the `n` parts of a second. */
  lemma ReadTime(a: real, b: real, d: real, n: real)
    requires a > 0.0 && n > 0.0 && d * b == n && b * a > 0.0
    ensures a / (b * a) * n == d
  {
    var x := a / (b * a);
    Quotient(a, b * a);
    Reorder(x, b, a);
    SameFactor(x * b, 1.0, a);
    Reorder(x, d, b);
  }

  lemma ReadWorth(a: real, b: real, d: real, n: real)
    requires n > 0.0 && d * b == n
    ensures d / n * (b * a) == a
  {
    UnitShare(b, d, n);
    Reorder(d / n, b, a);
    SameProduct(a, d / n * b, 1.0);
  }

  /** A read of `q` is worth exactly `d` nanoseconds, both ways. */
  lemma ReadIsWorth(q: nat, w: nat, d: nat)
    requires Steady(q, w, d)
    ensures Times(w, q) > 0 && Earned(Times(w, q) as real, d) == q as real
    ensures (q as real / Times(w, q) as real * NANOS).Floor == d
  {
    TimesIsProduct(w, q);
    PartOfProduct(w, q);
    assert Times(w, q) as real == w as real * q as real;
    assert (d * w) as real == d as real * w as real;
    ReadTime(q as real, w as real, d as real, NANOS);
    ReadWorth(q as real, w as real, d as real, NANOS);
    hide Times;
    assert q as real / Times(w, q) as real * NANOS == d as real;
  }

  lemma ReadFromEmpty(l: Bucket, q: nat, w: nat, d: nat)
    requires Steady(q, w, d) && l.rate == Times(w, q) as real && l.cap == l.rate * 1.5 && l.tokens == 0.0
    ensures l.rate > 0.0
    ensures SleepOf(l, q, l.last) == d && After(l, q, l.last) == l
    ensures SleepOf(l, q, l.last + d) == 0 && After(l, q, l.last + d) == l.(last := l.last + d)
  {
    ReadIsWorth(q, w, d);
    EarnedZero(l.rate);
    PartOfProduct(w, q);
    assert TokensAt(l, l.last) == 0.0;
    assert TokensAt(l, l.last + d) == q as real;
  }

  lemma OneMoreInRun(b: Bucket, calls: seq<Call>, c: Call)
    requires b.rate > 0.0 && Run(b, calls)
    requires Left(b, calls).last <= c.start <= c.end && c.start + SleepOf(Left(b, calls), c.n, c.start) <= c.end
    ensures Run(b, calls + [c]) && Left(b, calls + [c]) == After(Left(b, calls), c.n, c.start)
  {
    assert (calls + [c])[..|calls|] == calls;
  }

  /** A read served at once takes its bytes from the tokens. */
  lemma ServedAtOnce(l: Bucket, q: nat, left: nat)
    requires l.rate > 0.0 && l.tokens == (left + q) as real && l.tokens <= l.cap
    ensures SleepOf(l, q, l.last) == 0 && After(l, q, l.last) == l.(tokens := left as real)
  {
    EarnedZero(l.rate);
  }

  lemma {:induction false} MoreTimes(a: nat, b: nat, q: nat)
    requires a <= b
    ensures Times(a, q) <= Times(b, q)
  {
    if a < b { MoreTimes(a, b - 1, q); }
  }

  lemma {:induction false} DrainRuns(q: nat, w: nat, j: nat)
    requires q >= 1 && w >= 1 && j <= w
    ensures FreshBucket(q, w).rate > 0.0 && Run(FreshBucket(q, w), Drain(q, j))
    ensures Left(FreshBucket(q, w), Drain(q, j)) == FreshBucket(q, w).(tokens := Times(w - j, q) as real)
  {
    PartOfProduct(w, q);
    if j > 0 {
      DrainRuns(q, w, j - 1);
      OneMoreDrained(FreshBucket(q, w), q, w, j, Drain(q, j - 1));
    }
  }

  lemma OneMoreDrained(b: Bucket, q: nat, w: nat, j: nat, pre: seq<Call>)
    requires 1 <= j <= w && b.rate == Times(w, q) as real > 0.0 && b.cap == b.rate * 1.5 && b.last == 0
    requires Run(b, pre) && Left(b, pre) == b.(tokens := Times(w - j + 1, q) as real)
    ensures Run(b, pre + [Call(0, 0, q, 0)])
    ensures Left(b, pre + [Call(0, 0, q, 0)]) == b.(tokens := Times(w - j, q) as real)
  {
    assert Times(w - j + 1, q) == Times(w - j, q) + q;
    MoreTimes(w - j + 1, w, q);
    hide Times, Earned, Run, Left;
    ServedAtOnce(Left(b, pre), q, Times(w - j, q));
    OneMoreInRun(b, pre, Call(0, 0, q, 0));
  }

  lemma {:induction false} GreedyRuns(q: nat, w: nat, d: nat, k: nat, m: nat, j: nat)
    requires Steady(q, w, d) && j <= k + 1
    ensures FreshBucket(q, w).rate > 0.0 && Run(FreshBucket(q, w), Greedy(q, w, d, k, m, j))
    ensures Left(FreshBucket(q, w), Greedy(q, w, d, k, m, j))
         == FreshBucket(q, w).(tokens := 0.0, last := Times(if j == k + 1 then m + 1 else m, d))
    decreases m, j
  {
    var b := FreshBucket(q, w);
    if j > 0 {
      GreedyRuns(q, w, d, k, m, j - 1);
      var pre, c := Greedy(q, w, d, k, m, j - 1), GreedyCall(q, d, k, m, j - 1);
      assert Times(m + 1, d) == Times(m, d) + d;
      hide Times, Run, Left, Earned, Steady, SleepOf, After;
      ReadFromEmpty(Left(b, pre), q, w, d);
      OneMoreInRun(b, pre, c);
    } else if m > 0 {
      GreedyRuns(q, w, d, k, m - 1, k + 1);
    } else {
      DrainRuns(q, w, w);
    }
  }

  /** Every call reads `q` and is over by the time its caller calls again. */
  ghost predicate Tidy(calls: seq<Call>, q: nat, k: nat, d: nat, m: nat, j: nat) {
    forall i :: 0 <= i < |calls| ==>
      && calls[i].n == q && calls[i].caller < k && 0 <= calls[i].start
      && calls[i].end <= (if calls[i].caller < j then Times(m + 1, d) else Times(m, d))
  }

  lemma OneMoreCaller(calls: seq<Call>, k: nat, c: Call)
    requires Callers(calls, k) && c.caller < k
    requires forall i :: 0 <= i < |calls| && calls[i].caller == c.caller ==> calls[i].end <= c.start
    ensures Callers(calls + [c], k)
  {
  }

  lemma {:induction false} DrainCallers(q: nat, k: nat, d: nat, j: nat)
    requires k >= 1
    ensures Callers(Drain(q, j), k) && Tidy(Drain(q, j), q, k, d, 0, 0)
    ensures forall i :: 0 <= i < |Drain(q, j)| ==> Drain(q, j)[i].end == 0
  {
    if j > 0 {
      DrainCallers(q, k, d, j - 1);
      OneMoreCaller(Drain(q, j - 1), k, Call(0, 0, q, 0));
    }
  }

  lemma {:induction false} GreedyCallers(q: nat, w: nat, d: nat, k: nat, m: nat, j: nat)
    requires k >= 1 && j <= k + 1
    ensures Callers(Greedy(q, w, d, k, m, j), k) && Tidy(Greedy(q, w, d, k, m, j), q, k, d, m, j)
    decreases m, j
  {
    if j > 0 {
      GreedyCallers(q, w, d, k, m, j - 1);
      assert Times(m + 1, d) == Times(m, d) + d;
      OneMoreCaller(Greedy(q, w, d, k, m, j - 1), k, GreedyCall(q, d, k, m, j - 1));
    } else if m > 0 {
      GreedyCallers(q, w, d, k, m - 1, k + 1);
    } else {
      DrainCallers(q, k, d, w);
    }
  }

  lemma BytesOfOneMore(calls: seq<Call>, c: Call, s: int, e: int)
    ensures Bytes(calls + [c], s, e) == Bytes(calls, s, e) + (if Inside(c, s, e) then c.n else 0)
  {
  }

  lemma {:induction false} DrainBytes(q: nat, j: nat, t: nat)
    ensures Bytes(Drain(q, j), 0, t) == Times(j, q)
  {
    if j > 0 {
      DrainBytes(q, j - 1, t);
      BytesOfOneMore(Drain(q, j - 1), Call(0, 0, q, 0), 0, t);
    }
  }

  lemma {:induction false} GreedyBytes(q: nat, w: nat, d: nat, k: nat, m: nat, j: nat, t: nat)
    requires j <= k + 1 && Times(if j == 0 then m else m + 1, d) <= t
    ensures Bytes(Greedy(q, w, d, k, m, j), 0, t) == Times(w, q) + Times(m, Times(k + 1, q)) + Times(j, q)
    decreases m, j
  {
    assert Times(m + 1, d) == Times(m, d) + d;
    if j > 0 {
      GreedyBytes(q, w, d, k, m, j - 1, t);
      BytesOfOneMore(Greedy(q, w, d, k, m, j - 1), GreedyCall(q, d, k, m, j - 1), 0, t);
    } else if m > 0 {
      GreedyBytes(q, w, d, k, m - 1, k + 1, t);
    } else {
      DrainBytes(q, w, t);
    }
  }

  lemma {:induction false} TimesAdds(a: nat, b: nat, x: nat)
    ensures Times(a + b, x) == Times(a, x) + Times(b, x)
  {
    if b > 0 { TimesAdds(a, b - 1, x); }
  }

  lemma {:induction false} TimesTwice(m: nat, n: nat, x: nat)
    ensures Times(m, Times(n, x)) == Times(Times(m, n), x)
  {
    if m > 0 {
      TimesTwice(m - 1, n, x);
      TimesAdds(Times(m - 1, n), n, x);
    }
  }

  lemma {:induction false} EarnedTimes(rate: real, n: nat, d: nat, q: nat)
    requires Earned(rate, d) == q as real
    ensures Earned(rate, Times(n, d)) == Times(n, q) as real
  {
    if n > 0 {
      EarnedTimes(rate, n - 1, d, q);
      EarnedAdds(rate, Times(n - 1, d), d);
    } else {
      EarnedZero(rate);
    }
  }

  lemma TimesSwap(m: nat, n: nat)
    ensures Times(m, n) == Times(n, m)
  {
    TimesIsProduct(m, n);
    TimesIsProduct(n, m);
  }

  lemma GreedyEarns(q: nat, w: nat, d: nat, k: nat, m: nat)
    requires Steady(q, w, d)
    ensures Times(m, Times(k + 1, q)) as real == Earned(Times(w, q) as real, Times(k + 1, Times(m, d)))
  {
    ReadIsWorth(q, w, d);
    hide Times, Earned;
    TimesTwice(m, k + 1, q);
    TimesTwice(k + 1, m, d);
    TimesSwap(m, k + 1);
    EarnedTimes(Times(w, q) as real, Times(m, k + 1), d, q);
  }

  lemma RoundsTimesCallers(rate: real, k: nat, t: nat)
    ensures Earned(rate, Times(k + 1, t)) == Earned(rate, (k + 1) * t)
  {
    TimesIsProduct(k + 1, t);
    hide Earned, Times;
  }

  /** BytesSinceCreation is tight for every number of callers and for reads of any size that fits the rate evenly:
      every call asks for `q` bytes only, and with one caller twice the rate is sustained. */
  lemma BoundIsAttained(q: nat, w: nat, d: nat, k: nat, m: nat) returns (calls: seq<Call>)
    requires Steady(q, w, d) && k >= 1
    ensures var b := FreshBucket(q, w);
            && NewAt(b, 0) && Run(b, calls) && Callers(calls, k) && (forall i :: 0 <= i < |calls| ==> calls[i].n == q)
            && Bytes(calls, 0, Times(m, d)) as real == b.rate + Earned(b.rate, (k + 1) * Times(m, d))
  {
    assert Times(0, q) == 0;
    hide Run, Callers, Bytes, Greedy, Times, Left;
    calls := Greedy(q, w, d, k, m, 0);
    GreedyRuns(q, w, d, k, m, 0);
    GreedyCallers(q, w, d, k, m, 0);
    GreedyBytes(q, w, d, k, m, 0, Times(m, d));
    GreedyEarns(q, w, d, k, m);
    RoundsTimesCallers(Times(w, q) as real, k, Times(m, d));
  }

  /** The buffer of the TCP copy loop. */
  const TCP_READ := 32 * 1024

  /** At any bandwidth up to 32768 Mbit/s, reads no longer than the TCP copy buffer attain the bound: after the first
      second's worth, `k` callers get (k+1) times the rate for as long as they like, in rounds of 8 microseconds. */
  lemma EveryBandwidthIsExceeded(mbps: nat, k: nat, m: nat) returns (calls: seq<Call>)
    requires 1 <= mbps <= TCP_READ && k >= 1
    ensures var rate := mbps as real * 1_000_000.0 / 8.0;
            var b := Bucket(rate, rate * 1.5, rate, 0);
            && NewAt(b, 0) && Run(b, calls) && Callers(calls, k)
            && (forall i :: 0 <= i < |calls| ==> calls[i].n <= TCP_READ)
            && Bytes(calls, 0, m * 8000) as real == rate + Earned(rate, (k + 1) * (m * 8000))
  {
    TimesIsProduct(125_000, mbps);
    TimesIsProduct(m, 8000);
    calls := BoundIsAttained(mbps, 125_000, 8000, k, m);
  }
}
