/** The sliding-window token rate governor (src/rate_governor.rs).

    A deque of (instant, tokens) entries sits behind a mutex. Every lock-held section is one
    atomic step; the clock is read after the lock is taken, so instants never run backwards in
    step order. Instants and durations are integer milliseconds. */
module RateGovernor {

  const WINDOW_MS: int := 60_000
  const BUFFER_MS: int := 100

  datatype Entry = Entry(at: int, tokens: nat)

  /** What one pass through the lock-held section of `wait_and_record` decides. */
  datatype Outcome = Disabled | Admitted | Sleep(ms: int)

  // ----- the lock-held section, as a function of the deque -----

  function Total(w: seq<Entry>): nat
  {
    if w == [] then 0 else Total(w[..|w| - 1]) + w[|w| - 1].tokens
  }

  function Evict(w: seq<Entry>, cutoff: int): seq<Entry>
  {
    if w != [] && w[0].at < cutoff then Evict(w[1..], cutoff) else w
  }

  function SaturatingSub(a: int, b: int): int
  {
    if a >= b then a - b else 0
  }

  function Expiry(e: Entry): int
  {
    e.at + WINDOW_MS + BUFFER_MS
  }

  function OldestExpiry(w: seq<Entry>, now: int): int
  {
    if w == [] then now else Expiry(w[0])
  }

  /** Walk the deque from the oldest entry until `needed` tokens are freed. */
  function WaitUntil(w: seq<Entry>, needed: int, acc: int): int
  {
    if w == [] then acc
    else if w[0].tokens >= needed then Expiry(w[0])
    else WaitUntil(w[1..], needed - w[0].tokens, Expiry(w[0]))
  }

  function Attempt(maxTpm: nat, w: seq<Entry>, now: int, n: nat): (seq<Entry>, Outcome)
  {
    if maxTpm == 0 then (w, Disabled)
    else
      var live := Evict(w, now - WINDOW_MS);
      var current := Total(live);
      if n >= maxTpm then
        if current == 0 then (live + [Entry(now, n)], Admitted)
        else (live, Sleep(SaturatingSub(OldestExpiry(live, now), now)))
      else if current + n <= maxTpm then (live + [Entry(now, n)], Admitted)
      else (live, Sleep(SaturatingSub(WaitUntil(live, current + n - maxTpm, now), now)))
  }

  function Corrected(w: seq<Entry>, actual: nat): seq<Entry>
  {
    if w == [] then w else w[|w| - 1 := w[|w| - 1].(tokens := actual)]
  }

  // ----- the imperative governor -----

  class TokenRateGovernor {
    var window: seq<Entry>
    const maxTpm: nat

    constructor (maxTpm: nat)
      ensures this.maxTpm == maxTpm && window == []
    {
      this.maxTpm := maxTpm;
      window := [];
    }

    method EvictExpired(cutoff: int)
      modifies this
      ensures window == Evict(old(window), cutoff)
    {
      while window != [] && window[0].at < cutoff
        invariant Evict(window, cutoff) == Evict(old(window), cutoff)
        decreases |window|
      {
        window := window[1..];
      }
    }

    method Sum() returns (total: nat)
      ensures total == Total(window)
    {
      total := 0;
      for i := 0 to |window|
        invariant total == Total(window[..i])
      {
        assert window[..i + 1][..i] == window[..i];
        total := total + window[i].tokens;
      }
      assert window[..|window|] == window;
    }

    method CurrentTpm(now: int) returns (total: nat)
      modifies this
      ensures window == Evict(old(window), now - WINDOW_MS)
      ensures total == Total(window)
    {
      EvictExpired(now - WINDOW_MS);
      total := Sum();
    }

    method RetroactiveUpdate(actual: nat)
      modifies this
      ensures window == if maxTpm == 0 then old(window) else Corrected(old(window), actual)
    {
      if maxTpm == 0 { return; }
      if window != [] {
        var last := window[|window| - 1];
        if last.tokens != actual {
          window := window[|window| - 1 := last.(tokens := actual)];
        }
      }
    }

    method EarliestRelease(needed: int, now: int) returns (until: int)
      ensures until == WaitUntil(window, needed, now)
    {
      var freed := 0;
      until := now;
      var i := 0;
      while i < |window|
        invariant 0 <= i <= |window|
        invariant WaitUntil(window, needed, now) == WaitUntil(window[i..], needed - freed, until)
      {
        assert window[i..][1..] == window[i + 1..];
        freed := freed + window[i].tokens;
        until := Expiry(window[i]);
        if freed >= needed { break; }
        i := i + 1;
      }
    }

    /** One iteration of the retry loop, from taking the lock to releasing it. */
    method TryRecord(now: int, n: nat) returns (outcome: Outcome)
      modifies this
      ensures (window, outcome) == Attempt(maxTpm, old(window), now, n)
    {
      if maxTpm == 0 { return Disabled; }
      EvictExpired(now - WINDOW_MS);
      var current := Sum();
      if n >= maxTpm {
        if current == 0 {
          window := window + [Entry(now, n)];
          return Admitted;
        }
        var oldest := now;
        if window != [] { oldest := Expiry(window[0]); }
        return Sleep(SaturatingSub(oldest, now));
      }
      if current + n <= maxTpm {
        window := window + [Entry(now, n)];
        return Admitted;
      }
      var until := EarliestRelease(current + n - maxTpm, now);
      return Sleep(SaturatingSub(until, now));
    }
  }

  // ----- facts about the deque -----

  ghost predicate Sorted(w: seq<Entry>)
  {
    forall i, j :: 0 <= i < j < |w| ==> w[i].at <= w[j].at
  }

  lemma {:induction false} TotalSplit(a: seq<Entry>, b: seq<Entry>)
    ensures Total(a + b) == Total(a) + Total(b)
  {
    if b == [] {
      assert a + b == a;
    } else {
      var k := |b| - 1;
      assert (a + b)[..|a + b| - 1] == a + b[..k];
      TotalSplit(a, b[..k]);
    }
  }

  /** Eviction drops a prefix, and on a sorted deque exactly the entries older than the cutoff. */
  lemma {:induction false} EvictIsSuffix(w: seq<Entry>, cutoff: int) returns (k: nat)
    ensures k <= |w| && Evict(w, cutoff) == w[k..]
    ensures forall i :: 0 <= i < k ==> w[i].at < cutoff
    ensures k < |w| ==> w[k].at >= cutoff
  {
    if w != [] && w[0].at < cutoff {
      var k' := EvictIsSuffix(w[1..], cutoff);
      k := k' + 1;
      assert w[1..][k'..] == w[k..];
      forall i | 0 <= i < k ensures w[i].at < cutoff { if i > 0 { assert w[i] == w[1..][i - 1]; } }
    } else {
      k := 0;
    }
  }

  lemma EvictTotalBound(w: seq<Entry>, k: nat, cutoff: int)
    requires k <= |w| && forall i :: 0 <= i < k ==> w[i].at < cutoff
    ensures Total(Evict(w, cutoff)) <= Total(w[k..])
  {
    var j := EvictIsSuffix(w, cutoff);
    assert k <= j;
    assert w[k..] == w[k..j] + w[j..];
    TotalSplit(w[k..j], w[j..]);
  }

  lemma EvictTotalFloor(w: seq<Entry>, k: nat, cutoff: int)
    requires Sorted(w) && k < |w| && w[k].at >= cutoff
    ensures Total(Evict(w, cutoff)) >= Total(w[k..])
  {
    var j := EvictIsSuffix(w, cutoff);
    assert j <= k;
    assert w[j..] == w[j..k] + w[k..];
    TotalSplit(w[j..k], w[k..]);
  }

  /** The release instant names the first entry whose expiry frees enough tokens. */
  lemma {:induction false} WaitUntilFrees(w: seq<Entry>, needed: int, acc: int) returns (k: nat)
    requires 0 < needed <= Total(w)
    ensures k < |w| && WaitUntil(w, needed, acc) == Expiry(w[k])
    ensures Total(w[..k]) < needed <= Total(w[..k + 1])
  {
    assert w == [w[0]] + w[1..];
    TotalSplit([w[0]], w[1..]);
    assert Total([w[0]]) == w[0].tokens by { assert [w[0]][..0] == []; }
    if w[0].tokens >= needed {
      k := 0;
      assert w[..1] == [w[0]];
    } else {
      var k' := WaitUntilFrees(w[1..], needed - w[0].tokens, Expiry(w[0]));
      k := k' + 1;
      assert w[..k] == [w[0]] + w[1..][..k'];
      assert w[..k + 1] == [w[0]] + w[1..][..k' + 1];
      TotalSplit([w[0]], w[1..][..k']);
      TotalSplit([w[0]], w[1..][..k' + 1]);
    }
  }

  // ----- the throttle wait is exact -----

  lemma {:induction false} LiveEntries(w: seq<Entry>, now: int)
    requires Sorted(w) && forall e :: e in w ==> e.at <= now
    ensures var live := Evict(w, now - WINDOW_MS);
            Sorted(live) && forall i :: 0 <= i < |live| ==> now - WINDOW_MS <= live[i].at <= now
  {
    var k := EvictIsSuffix(w, now - WINDOW_MS);
    var live := w[k..];
    forall i | 0 <= i < |live| ensures now - WINDOW_MS <= live[i].at <= now {
      assert live[i] == w[k + i];
      assert w[k].at <= w[k + i].at;
    }
  }

  lemma TotalCut(w: seq<Entry>, k: nat)
    requires k <= |w|
    ensures Total(w) == Total(w[..k]) + Total(w[k..])
  {
    assert w == w[..k] + w[k..];
    TotalSplit(w[..k], w[k..]);
  }

  /** The entry named by `WaitUntil`: with it still in the deque too much is left, without it and
      everything older enough has gone. */
  lemma ReleaseEntry(live: seq<Entry>, needed: int, acc: int) returns (k: nat)
    requires 0 < needed <= Total(live)
    ensures k < |live| && WaitUntil(live, needed, acc) == Expiry(live[k])
    ensures Total(live[k + 1..]) <= Total(live) - needed < Total(live[k..])
  {
    k := WaitUntilFrees(live, needed, acc);
    TotalCut(live, k);
    TotalCut(live, k + 1);
  }

  /** How much must go before a request of `n` fits is known to have been entry `k` of the deque. */
  ghost predicate Blocks(maxTpm: nat, live: seq<Entry>, n: nat, k: nat)
  {
    && k < |live|
    && (n < maxTpm ==> Total(live[k + 1..]) + n <= maxTpm < Total(live[k..]) + n)
    && (n >= maxTpm ==> k == 0 && Total(live) > 0)
  }

  /** A refusal waits for the expiry of one live entry, the one that blocks the request. */
  lemma RefusalNamesEntry(maxTpm: nat, w: seq<Entry>, now: int, n: nat) returns (k: nat)
    requires Sorted(w) && forall e :: e in w ==> e.at <= now
    requires Attempt(maxTpm, w, now, n).1.Sleep?
    ensures var (live, o) := Attempt(maxTpm, w, now, n);
            && maxTpm > 0 && live == Evict(w, now - WINDOW_MS) && Sorted(live)
            && Blocks(maxTpm, live, n, k)
            && now - WINDOW_MS <= live[k].at <= now
            && o == Sleep(Expiry(live[k]) - now)
  {
    LiveEntries(w, now);
    var live := Evict(w, now - WINDOW_MS);
    k := 0;
    if n < maxTpm {
      k := ReleaseEntry(live, Total(live) + n - maxTpm, now);
    }
  }

  lemma RefusedBeforeExpiry(maxTpm: nat, live: seq<Entry>, k: nat, n: nat, t: int)
    requires maxTpm > 0 && Sorted(live) && Blocks(maxTpm, live, n, k) && t - WINDOW_MS <= live[k].at
    ensures Attempt(maxTpm, live, t, n).1.Sleep?
  {
    assert live[0..] == live;
    EvictTotalFloor(live, k, t - WINDOW_MS);
  }

  lemma AdmittedAfterExpiry(maxTpm: nat, live: seq<Entry>, k: nat, n: nat, t: int)
    requires n < maxTpm && Sorted(live) && Blocks(maxTpm, live, n, k) && Expiry(live[k]) <= t
    ensures Attempt(maxTpm, live, t, n).1.Admitted?
  {
    forall i | 0 <= i < k + 1 ensures live[i].at < t - WINDOW_MS { assert live[i].at <= live[k].at; }
    EvictTotalBound(live, k + 1, t - WINDOW_MS);
  }

  /** Every refusal asks for a sleep of 100 ms to 60.1 s. If nothing else is recorded meanwhile,
      no attempt up to 100 ms before the wake-up can succeed, and for a request below the limit
      every attempt from the wake-up on does. */
  lemma WaitIsExact(maxTpm: nat, w: seq<Entry>, now: int, n: nat, t: int)
    requires Sorted(w) && forall e :: e in w ==> e.at <= now
    requires Attempt(maxTpm, w, now, n).1.Sleep?
    ensures var (live, o) := Attempt(maxTpm, w, now, n);
            && 100 <= o.ms <= 60_100
            && (now <= t <= now + o.ms - 100 ==> Attempt(maxTpm, live, t, n).1.Sleep?)
            && (n < maxTpm && now + o.ms <= t ==> Attempt(maxTpm, live, t, n).1.Admitted?)
  {
    var k := RefusalNamesEntry(maxTpm, w, now, n);
    var (live, o) := Attempt(maxTpm, w, now, n);
    if t <= now + o.ms - BUFFER_MS {
      RefusedBeforeExpiry(maxTpm, live, k, n, t);
    } else if n < maxTpm && now + o.ms <= t {
      AdmittedAfterExpiry(maxTpm, live, k, n, t);
    }
  }

  /** A caller alone with the governor: attempts at `times`, each no earlier than the sleep asked
      for by the one before, all refused. */
  ghost predicate LoneRefusals(maxTpm: nat, w: seq<Entry>, n: nat, times: seq<int>)
    decreases |times|
  {
    times == [] ||
    var (w', o) := Attempt(maxTpm, w, times[0], n);
    && o.Sleep?
    && (|times| > 1 ==> times[1] >= times[0] + o.ms)
    && LoneRefusals(maxTpm, w', n, times[1..])
  }

  lemma WakingEvicts(maxTpm: nat, w: seq<Entry>, n: nat, now: int, t: int)
    requires Sorted(w) && forall e :: e in w ==> e.at <= now
    requires Attempt(maxTpm, w, now, n).1.Sleep? && t >= now + Attempt(maxTpm, w, now, n).1.ms
    ensures |Evict(Attempt(maxTpm, w, now, n).0, t - WINDOW_MS)| < |Evict(w, now - WINDOW_MS)|
  {
    var k := RefusalNamesEntry(maxTpm, w, now, n);
    var live := Evict(w, now - WINDOW_MS);
    assert live[0].at <= live[k].at;
    var j := EvictIsSuffix(live, t - WINDOW_MS);
  }

  lemma {:induction false} LoneRefusalsBounded(maxTpm: nat, w: seq<Entry>, n: nat, times: seq<int>)
    requires times != [] && Sorted(w) && forall e :: e in w ==> e.at <= times[0]
    requires LoneRefusals(maxTpm, w, n, times)
    ensures |times| <= |Evict(w, times[0] - WINDOW_MS)|
    decreases |times|
  {
    if |times| == 1 {
      var k := RefusalNamesEntry(maxTpm, w, times[0], n);
    } else {
      WakingEvicts(maxTpm, w, n, times[0], times[1]);
      RefusalKeepsEntries(maxTpm, w, n, times[0]);
      LoneRefusalsBounded(maxTpm, Attempt(maxTpm, w, times[0], n).0, n, times[1..]);
    }
  }

  lemma RefusalKeepsEntries(maxTpm: nat, w: seq<Entry>, n: nat, now: int)
    requires Sorted(w) && forall e :: e in w ==> e.at <= now
    requires Attempt(maxTpm, w, now, n).1.Sleep?
    ensures var w' := Attempt(maxTpm, w, now, n).0; Sorted(w') && forall e :: e in w' ==> e.at <= now
  {
    LiveEntries(w, now);
  }

  /** Alone, a caller waits at most once below the limit, and at most once per window entry at or
      above it. */
  lemma LoneCallerWaits(maxTpm: nat, w: seq<Entry>, n: nat, times: seq<int>)
    requires Sorted(w) && (times != [] ==> forall e :: e in w ==> e.at <= times[0])
    requires LoneRefusals(maxTpm, w, n, times)
    ensures |times| <= |w|
    ensures n < maxTpm ==> |times| <= 1
  {
    if times != [] {
      LoneRefusalsBounded(maxTpm, w, n, times);
      var j := EvictIsSuffix(w, times[0] - WINDOW_MS);
    }
    if |times| > 1 {
      WaitIsExact(maxTpm, w, times[0], n, times[1]);
      assert LoneRefusals(maxTpm, Attempt(maxTpm, w, times[0], n).0, n, times[1..]);
    }
  }
}
