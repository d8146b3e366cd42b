/** Any number of clients share one governor (src/rate_governor.rs): `wait_and_record` calls arrive,
    retry, sleep and are dropped in any order, `current_tpm` is read, and `retroactive_update`
    rewrites whatever entry is newest, whoever recorded it.

    A history of every admission is kept beside the deque, which forgets. */
module GovernorRuns {
  import opened RateGovernor

  /** One admission: whose, when, for how many estimated tokens, and what it counts for now. */
  datatype Record = Record(client: int, at: int, estimate: nat, tokens: nat)

  datatype Waiting = Waiting(tokens: nat, wake: int)

  datatype System = System(clock: int, window: seq<Entry>, waiting: map<int, Waiting>, history: seq<Record>)

  datatype Step =
    | Tick(to: int)                     // time passes
    | Arrive(client: int, tokens: nat)  // wait_and_record is called
    | Try(client: int)                  // one lock-held section, no earlier than the wake-up
    | Cancel(client: int)               // the call is dropped while it sleeps
    | Observe                           // current_tpm
    | Correct(client: int, actual: nat) // retroactive_update, after the client's response

  predicate Enabled(s: System, step: Step)
  {
    match step
    case Tick(to) => s.clock <= to
    case Arrive(c, _) => c !in s.waiting
    case Try(c) => c in s.waiting && s.waiting[c].wake <= s.clock
    case Cancel(c) => c in s.waiting
    case Observe => true
    case Correct(_, _) => true
  }

  function CorrectedHistory(h: seq<Record>, actual: nat): seq<Record>
  {
    if h == [] then h else h[|h| - 1 := h[|h| - 1].(tokens := actual)]
  }

  function Apply(maxTpm: nat, s: System, step: Step): System
    requires Enabled(s, step)
  {
    match step
    case Tick(to) => s.(clock := to)
    case Arrive(c, n) => s.(waiting := s.waiting[c := Waiting(n, s.clock)])
    case Try(c) =>
      var n := s.waiting[c].tokens;
      var (w, o) := Attempt(maxTpm, s.window, s.clock, n);
      (match o
       case Disabled => s.(waiting := s.waiting - {c})
       case Admitted => System(s.clock, w, s.waiting - {c}, s.history + [Record(c, s.clock, n, n)])
       case Sleep(ms) => s.(window := w, waiting := s.waiting[c := Waiting(n, s.clock + ms)]))
    case Cancel(c) => s.(waiting := s.waiting - {c})
    case Observe => s.(window := Evict(s.window, s.clock - WINDOW_MS))
    case Correct(_, actual) =>
      if maxTpm == 0 || s.window == [] then s
      else s.(window := Corrected(s.window, actual), history := CorrectedHistory(s.history, actual))
  }

  function Initial(clock: int): System
  {
    System(clock, [], map[], [])
  }

  ghost predicate Feasible(maxTpm: nat, s: System, steps: seq<Step>)
    decreases |steps|
  {
    steps == [] || (Enabled(s, steps[0]) && Feasible(maxTpm, Apply(maxTpm, s, steps[0]), steps[1..]))
  }

  function Run(maxTpm: nat, s: System, steps: seq<Step>): System
    requires Feasible(maxTpm, s, steps)
    decreases |steps|
  {
    if steps == [] then s else Run(maxTpm, Apply(maxTpm, s, steps[0]), steps[1..])
  }

  // ----- sums over the history -----

  predicate In(r: Record, lo: int, hi: int)
  {
    lo <= r.at <= hi
  }

  /** Tokens admitted in the closed interval [lo, hi]. */
  function TokensIn(h: seq<Record>, lo: int, hi: int): nat
  {
    if h == [] then 0
    else
      var r := h[|h| - 1];
      TokensIn(h[..|h| - 1], lo, hi) + if In(r, lo, hi) then r.tokens else 0
  }

  /** How many admissions in [lo, hi] count for more than nothing. */
  function NonZeroIn(h: seq<Record>, lo: int, hi: int): nat
  {
    if h == [] then 0
    else
      var r := h[|h| - 1];
      NonZeroIn(h[..|h| - 1], lo, hi) + if In(r, lo, hi) && r.tokens > 0 then 1 else 0
  }

  /** By how much the newest admission in [lo, hi] was later corrected upwards. */
  function NewestCorrection(h: seq<Record>, lo: int, hi: int): nat
  {
    if h == [] then 0
    else
      var r := h[|h| - 1];
      if !In(r, lo, hi) then NewestCorrection(h[..|h| - 1], lo, hi)
      else if r.tokens > r.estimate then r.tokens - r.estimate else 0
  }

  ghost predicate Ordered(h: seq<Record>, clock: int)
  {
    && (forall i, j :: 0 <= i < j < |h| ==> h[i].at <= h[j].at)
    && (forall i :: 0 <= i < |h| ==> h[i].at <= clock)
  }

  /** Record k was admitted on top of what the 60 s before it held. */
  ghost predicate PacedAt(maxTpm: nat, h: seq<Record>, k: nat)
    requires k < |h|
  {
    var prior := TokensIn(h[..k], h[k].at - WINDOW_MS, h[k].at);
    prior + h[k].estimate <= maxTpm || (prior == 0 && h[k].estimate >= maxTpm)
  }

  ghost predicate Paced(maxTpm: nat, h: seq<Record>)
  {
    forall k :: 0 <= k < |h| ==> PacedAt(maxTpm, h, k)
  }

  lemma {:induction false} TokensSplit(a: seq<Record>, b: seq<Record>, lo: int, hi: int)
    ensures TokensIn(a + b, lo, hi) == TokensIn(a, lo, hi) + TokensIn(b, lo, hi)
  {
    if b == [] {
      assert a + b == a;
    } else {
      var k := |b| - 1;
      assert (a + b)[..|a + b| - 1] == a + b[..k];
      TokensSplit(a, b[..k], lo, hi);
    }
  }

  lemma {:induction false} TokensOutside(h: seq<Record>, lo: int, hi: int)
    requires forall i :: 0 <= i < |h| ==> !In(h[i], lo, hi)
    ensures TokensIn(h, lo, hi) == 0
  {
    if h != [] { TokensOutside(h[..|h| - 1], lo, hi); }
  }

  lemma {:induction false} TokensNarrow(h: seq<Record>, lo: int, hi: int, lo': int, hi': int)
    requires forall i :: 0 <= i < |h| && In(h[i], lo, hi) ==> In(h[i], lo', hi')
    ensures TokensIn(h, lo, hi) <= TokensIn(h, lo', hi')
  {
    if h != [] { TokensNarrow(h[..|h| - 1], lo, hi, lo', hi'); }
  }

  lemma {:induction false} NoTokensNoRecords(h: seq<Record>, lo: int, hi: int)
    requires TokensIn(h, lo, hi) == 0
    ensures NonZeroIn(h, lo, hi) == 0
  {
    if h != [] { NoTokensNoRecords(h[..|h| - 1], lo, hi); }
  }

  // ----- what every step keeps -----

  function Entries(rs: seq<Record>): seq<Entry>
  {
    seq(|rs|, i requires 0 <= i < |rs| => Entry(rs[i].at, rs[i].tokens))
  }

  /** The deque is the newest part of the history. */
  ghost predicate Suffix(w: seq<Entry>, h: seq<Record>)
  {
    |w| <= |h| && w == Entries(h[|h| - |w|..])
  }

  /** And all before it is over 60 s old. */
  ghost predicate Mirrors(w: seq<Entry>, h: seq<Record>, clock: int)
  {
    && Suffix(w, h)
    && forall i :: 0 <= i < |h| - |w| ==> h[i].at < clock - WINDOW_MS
  }

  ghost predicate Inv(maxTpm: nat, s: System)
  {
    && Ordered(s.history, s.clock)
    && Mirrors(s.window, s.history, s.clock)
    && Narrow(s.window)
    && Paced(maxTpm, s.history)
    && (maxTpm == 0 ==> s.history == [])
  }

  lemma {:induction false} EntriesTotal(rs: seq<Record>, lo: int, hi: int)
    requires forall r :: r in rs ==> In(r, lo, hi)
    ensures Total(Entries(rs)) == TokensIn(rs, lo, hi)
  {
    if rs != [] {
      var k := |rs| - 1;
      assert Entries(rs)[..k] == Entries(rs[..k]);
      EntriesTotal(rs[..k], lo, hi);
    }
  }

  lemma WindowSorted(w: seq<Entry>, h: seq<Record>, clock: int)
    requires Ordered(h, clock) && Mirrors(w, h, clock)
    ensures Sorted(w) && forall e :: e in w ==> e.at <= clock
  {
  }

  lemma SuffixDrop(w: seq<Entry>, h: seq<Record>, j: nat)
    requires Suffix(w, h) && j <= |w|
    ensures Suffix(w[j..], h)
  {
    var off := |h| - |w|;
    assert h[off + j..] == h[off..][j..];
  }

  lemma SuffixDropNewest(w: seq<Entry>, h: seq<Record>)
    requires Suffix(w, h) && w != []
    ensures Suffix(w[..|w| - 1], h[..|h| - 1])
    ensures w[|w| - 1] == Entry(h[|h| - 1].at, h[|h| - 1].tokens)
  {
    var off := |h| - |w|;
    assert h[..|h| - 1][off..] == h[off..][..|w| - 1];
  }

  /** Evicting loses no entry of the last 60 s. */
  lemma EvictMirrors(w: seq<Entry>, h: seq<Record>, clock: int) returns (j: nat)
    requires Ordered(h, clock) && Mirrors(w, h, clock)
    ensures j <= |w| && w[j..] == Evict(w, clock - WINDOW_MS)
    ensures Mirrors(w[j..], h, clock)
    ensures forall e :: e in w[j..] ==> clock - WINDOW_MS <= e.at <= clock
  {
    WindowSorted(w, h, clock);
    LiveEntries(w, clock);
    j := EvictIsSuffix(w, clock - WINDOW_MS);
    SuffixDrop(w, h, j);
    var off := |h| - |w|;
    forall i | 0 <= i < off + j ensures h[i].at < clock - WINDOW_MS {
      if i >= off { assert w[i - off].at == h[off..][i - off].at; }
    }
  }

  lemma EntriesIn(rs: seq<Record>, lo: int, hi: int)
    requires forall e :: e in Entries(rs) ==> lo <= e.at <= hi
    ensures forall r :: r in rs ==> In(r, lo, hi)
  {
    forall r | r in rs ensures In(r, lo, hi) {
      var i :| 0 <= i < |rs| && rs[i] == r;
      assert Entries(rs)[i] in Entries(rs);
    }
  }

  lemma NewestTotal(older: seq<Record>, newest: seq<Record>, lo: int, hi: int)
    requires forall e :: e in Entries(newest) ==> lo <= e.at <= hi
    ensures TokensIn(older + newest, lo, hi) == TokensIn(older, lo, hi) + Total(Entries(newest))
  {
    EntriesIn(newest, lo, hi);
    EntriesTotal(newest, lo, hi);
    TokensSplit(older, newest, lo, hi);
  }

  lemma SuffixTotal(w: seq<Entry>, h: seq<Record>, lo: int, hi: int)
    requires Suffix(w, h)
    requires forall e :: e in w ==> lo <= e.at <= hi
    ensures TokensIn(h, lo, hi) == TokensIn(h[..|h| - |w|], lo, hi) + Total(w)
  {
    var off := |h| - |w|;
    assert h == h[..off] + h[off..];
    NewestTotal(h[..off], h[off..], lo, hi);
  }

  lemma LiveTotal(w: seq<Entry>, h: seq<Record>, clock: int)
    requires Mirrors(w, h, clock)
    requires forall e :: e in w ==> clock - WINDOW_MS <= e.at <= clock
    ensures Total(w) == TokensIn(h, clock - WINDOW_MS, clock)
  {
    SuffixTotal(w, h, clock - WINDOW_MS, clock);
    TokensOutside(h[..|h| - |w|], clock - WINDOW_MS, clock);
  }

  /** The entries of the deque span at most 60 s. */
  ghost predicate Narrow(w: seq<Entry>)
  {
    w != [] ==> w[|w| - 1].at - WINDOW_MS <= w[0].at
  }

  lemma NarrowDrop(w: seq<Entry>, j: nat)
    requires Sorted(w) && Narrow(w) && j <= |w|
    ensures Narrow(w[j..])
  {
  }

  lemma EvictKeepsInv(maxTpm: nat, s: System)
    requires Inv(maxTpm, s)
    ensures var w := Evict(s.window, s.clock - WINDOW_MS);
            && Inv(maxTpm, s.(window := w))
            && Total(w) == TokensIn(s.history, s.clock - WINDOW_MS, s.clock)
            && (w != [] ==> s.clock - WINDOW_MS <= w[0].at)
  {
    var j := EvictMirrors(s.window, s.history, s.clock);
    var w := s.window[j..];
    LiveTotal(w, s.history, s.clock);
    WindowSorted(s.window, s.history, s.clock);
    NarrowDrop(s.window, j);
    assert w != [] ==> w[0] in w;
  }

  lemma AdmitKeepsPaced(maxTpm: nat, h: seq<Record>, r: Record)
    requires Paced(maxTpm, h)
    requires var prior := TokensIn(h, r.at - WINDOW_MS, r.at);
             prior + r.estimate <= maxTpm || (prior == 0 && r.estimate >= maxTpm)
    ensures Paced(maxTpm, h + [r])
  {
    var h' := h + [r];
    forall k | 0 <= k < |h'| ensures PacedAt(maxTpm, h', k) {
      if k < |h| {
        assert PacedAt(maxTpm, h, k);
        assert h'[..k] == h[..k];
      } else {
        assert h'[..k] == h;
      }
    }
  }

  lemma CorrectSuffix(w: seq<Entry>, h: seq<Record>, actual: nat)
    requires Suffix(w, h) && w != []
    ensures Suffix(Corrected(w, actual), CorrectedHistory(h, actual))
  {
    var off := |h| - |w|;
    assert CorrectedHistory(h, actual)[off..] == CorrectedHistory(h[off..], actual);
  }

  lemma CorrectPaced(maxTpm: nat, h: seq<Record>, actual: nat)
    requires Paced(maxTpm, h)
    ensures Paced(maxTpm, CorrectedHistory(h, actual))
  {
    var h' := CorrectedHistory(h, actual);
    forall k | 0 <= k < |h'| ensures PacedAt(maxTpm, h', k) {
      assert PacedAt(maxTpm, h, k);
      assert h'[..k] == h[..k];
    }
  }

  lemma CorrectKeepsInv(maxTpm: nat, s: System, c: int, actual: nat)
    requires Inv(maxTpm, s)
    ensures Inv(maxTpm, Apply(maxTpm, s, Correct(c, actual)))
  {
    if maxTpm > 0 && s.window != [] {
      CorrectSuffix(s.window, s.history, actual);
      CorrectPaced(maxTpm, s.history, actual);
    }
  }

  lemma AdmitMirrors(w: seq<Entry>, h: seq<Record>, c: int, clock: int, n: nat)
    requires Mirrors(w, h, clock)
    ensures Mirrors(w + [Entry(clock, n)], h + [Record(c, clock, n, n)], clock)
  {
    var r := Record(c, clock, n, n);
    var off := |h| - |w|;
    assert (h + [r])[off..] == h[off..] + [r];
    assert Entries(h[off..] + [r]) == Entries(h[off..]) + [Entry(clock, n)];
  }

  lemma AdmitOrdered(h: seq<Record>, c: int, clock: int, n: nat)
    requires Ordered(h, clock)
    ensures Ordered(h + [Record(c, clock, n, n)], clock)
  {
  }

  lemma AdmitKeepsInv(maxTpm: nat, s: System, c: int, n: nat)
    requires Inv(maxTpm, s) && maxTpm > 0
    requires s.window != [] ==> s.clock - WINDOW_MS <= s.window[0].at
    requires var prior := TokensIn(s.history, s.clock - WINDOW_MS, s.clock);
             prior + n <= maxTpm || (prior == 0 && n >= maxTpm)
    ensures Inv(maxTpm, s.(window := s.window + [Entry(s.clock, n)],
                           history := s.history + [Record(c, s.clock, n, n)]))
  {
    AdmitKeepsPaced(maxTpm, s.history, Record(c, s.clock, n, n));
    AdmitMirrors(s.window, s.history, c, s.clock, n);
    AdmitOrdered(s.history, c, s.clock, n);
  }

  lemma AttemptCases(maxTpm: nat, w: seq<Entry>, now: int, n: nat)
    ensures var (w', o) := Attempt(maxTpm, w, now, n);
            var live := Evict(w, now - WINDOW_MS);
            match o
            case Disabled => maxTpm == 0 && w' == w
            case Admitted =>
              && maxTpm > 0 && w' == live + [Entry(now, n)]
              && (Total(live) + n <= maxTpm || (Total(live) == 0 && n >= maxTpm))
            case Sleep(_) => w' == live
  {
  }

  lemma TryKeepsInv(maxTpm: nat, s: System, c: int)
    requires Inv(maxTpm, s) && Enabled(s, Try(c))
    ensures Inv(maxTpm, Apply(maxTpm, s, Try(c)))
  {
    var n := s.waiting[c].tokens;
    AttemptCases(maxTpm, s.window, s.clock, n);
    EvictKeepsInv(maxTpm, s);
    var s' := s.(window := Evict(s.window, s.clock - WINDOW_MS));
    match Attempt(maxTpm, s.window, s.clock, n).1
    case Disabled =>
    case Sleep(_) =>
    case Admitted =>
      AdmitKeepsInv(maxTpm, s', c, n);
  }

  lemma StepKeepsInv(maxTpm: nat, s: System, step: Step)
    requires Inv(maxTpm, s) && Enabled(s, step)
    ensures Inv(maxTpm, Apply(maxTpm, s, step))
  {
    match step
    case Try(c) => TryKeepsInv(maxTpm, s, c);
    case Observe => EvictKeepsInv(maxTpm, s);
    case Correct(c, actual) => CorrectKeepsInv(maxTpm, s, c, actual);
    case _ =>
  }

  lemma {:induction false} RunKeepsInv(maxTpm: nat, s: System, steps: seq<Step>)
    requires Inv(maxTpm, s) && Feasible(maxTpm, s, steps)
    ensures Inv(maxTpm, Run(maxTpm, s, steps))
    decreases |steps|
  {
    if steps != [] {
      StepKeepsInv(maxTpm, s, steps[0]);
      RunKeepsInv(maxTpm, Apply(maxTpm, s, steps[0]), steps[1..]);
    }
  }

  /** Some run from an empty governor ends in `s`. */
  ghost predicate Reachable(maxTpm: nat, s: System)
  {
    exists clock: int, steps: seq<Step> ::
      Feasible(maxTpm, Initial(clock), steps) && Run(maxTpm, Initial(clock), steps) == s
  }

  /** The same without `retroactive_update`. */
  ghost predicate ReachableUncorrected(maxTpm: nat, s: System)
  {
    exists clock: int, steps: seq<Step> ::
      && Feasible(maxTpm, Initial(clock), steps) && Run(maxTpm, Initial(clock), steps) == s
      && NoCorrections(steps)
  }

  ghost predicate NoCorrections(steps: seq<Step>)
  {
    forall i :: 0 <= i < |steps| ==> !steps[i].Correct?
  }

  lemma ReachableInv(maxTpm: nat, s: System)
    requires Reachable(maxTpm, s)
    ensures Inv(maxTpm, s)
  {
    var clock: int, steps: seq<Step> :|
      Feasible(maxTpm, Initial(clock), steps) && Run(maxTpm, Initial(clock), steps) == s;
    RunKeepsInv(maxTpm, Initial(clock), steps);
  }

  // ----- every 60 second interval -----

  lemma PacedPrefix(maxTpm: nat, h: seq<Record>, k: nat)
    requires Paced(maxTpm, h) && k <= |h|
    ensures Paced(maxTpm, h[..k])
  {
    forall j | 0 <= j < k ensures PacedAt(maxTpm, h[..k], j) {
      assert PacedAt(maxTpm, h, j);
      assert h[..k][..j] == h[..j];
    }
  }

  /** The newest admission in [lo, hi] is oversized, and nothing before it in the interval counts. */
  ghost predicate OversizedAlone(maxTpm: nat, h: seq<Record>, lo: int, hi: int)
  {
    h != [] &&
    var k := |h| - 1;
    if In(h[k], lo, hi) then h[k].estimate >= maxTpm && TokensIn(h[..k], lo, hi) == 0 && NonZeroIn(h[..k], lo, hi) == 0
    else OversizedAlone(maxTpm, h[..k], lo, hi)
  }

  lemma {:induction false} OnlyNewestCounts(maxTpm: nat, h: seq<Record>, lo: int, hi: int)
    ensures OversizedAlone(maxTpm, h, lo, hi) ==> NonZeroIn(h, lo, hi) <= 1
  {
    if h != [] { OnlyNewestCounts(maxTpm, h[..|h| - 1], lo, hi); }
  }

  /** Any closed interval of at most 60 s, not only the ones that end at an admission. */
  lemma {:induction false} PacedIntervals(maxTpm: nat, h: seq<Record>, clock: int, lo: int, hi: int)
    requires Ordered(h, clock) && Paced(maxTpm, h) && hi <= lo + WINDOW_MS
    ensures TokensIn(h, lo, hi) <= maxTpm + NewestCorrection(h, lo, hi) || OversizedAlone(maxTpm, h, lo, hi)
  {
    if h != [] {
      var k := |h| - 1;
      var r := h[k];
      if In(r, lo, hi) {
        assert PacedAt(maxTpm, h, k);
        TokensNarrow(h[..k], lo, hi, r.at - WINDOW_MS, r.at);
        if TokensIn(h[..k], lo, hi) == 0 { NoTokensNoRecords(h[..k], lo, hi); }
      } else {
        PacedPrefix(maxTpm, h, k);
        PacedIntervals(maxTpm, h[..k], clock, lo, hi);
      }
    }
  }

  /** After every run of any number of clients, in every closed 60 s interval of the whole history:
      the tokens total at most `maxTpm` plus the upward correction of the newest admission in the
      interval, or that admission is oversized and no other in the interval counts. */
  lemma EveryIntervalIsPaced(maxTpm: nat, s: System, lo: int)
    requires Reachable(maxTpm, s)
    ensures || TokensIn(s.history, lo, lo + 60_000) <= maxTpm + NewestCorrection(s.history, lo, lo + 60_000)
            || (OversizedAlone(maxTpm, s.history, lo, lo + 60_000) && NonZeroIn(s.history, lo, lo + 60_000) <= 1)
  {
    ReachableInv(maxTpm, s);
    PacedIntervals(maxTpm, s.history, s.clock, lo, lo + WINDOW_MS);
    OnlyNewestCounts(maxTpm, s.history, lo, lo + WINDOW_MS);
  }

  lemma {:induction false} UncorrectedHistory(maxTpm: nat, s: System, steps: seq<Step>)
    requires Feasible(maxTpm, s, steps)
    requires NoCorrections(steps)
    requires forall r :: r in s.history ==> r.tokens == r.estimate
    ensures forall r :: r in Run(maxTpm, s, steps).history ==> r.tokens == r.estimate
    decreases |steps|
  {
    if steps != [] {
      UncorrectedHistory(maxTpm, Apply(maxTpm, s, steps[0]), steps[1..]);
    }
  }

  lemma {:induction false} NoCorrection(h: seq<Record>, lo: int, hi: int)
    requires forall r :: r in h ==> r.tokens == r.estimate
    ensures NewestCorrection(h, lo, hi) == 0
    ensures NonZeroIn(h, lo, hi) == 0 ==> TokensIn(h, lo, hi) == 0
  {
    if h != [] { NoCorrection(h[..|h| - 1], lo, hi); }
  }

  /** Without retroactive corrections the limit itself holds over every 60 s interval, unless one
      oversized request has the interval to itself. */
  lemma UncorrectedIntervals(maxTpm: nat, s: System, lo: int)
    requires ReachableUncorrected(maxTpm, s)
    ensures || TokensIn(s.history, lo, lo + 60_000) <= maxTpm
            || (OversizedAlone(maxTpm, s.history, lo, lo + 60_000) && NonZeroIn(s.history, lo, lo + 60_000) == 1)
  {
    var clock: int, steps: seq<Step> :|
      && Feasible(maxTpm, Initial(clock), steps) && Run(maxTpm, Initial(clock), steps) == s
      && NoCorrections(steps);
    EveryIntervalIsPaced(maxTpm, s, lo);
    UncorrectedHistory(maxTpm, Initial(clock), steps);
    NoCorrection(s.history, lo, lo + WINDOW_MS);
  }

  // ----- the deque itself, corrections included -----

  /** The upward correction carried by the newest record. */
  function LastCorrection(h: seq<Record>): nat
    requires h != []
  {
    var r := h[|h| - 1];
    if r.tokens > r.estimate then r.tokens - r.estimate else 0
  }

  lemma OlderInReach(w: seq<Entry>)
    requires Sorted(w) && Narrow(w) && w != []
    ensures var t := w[|w| - 1].at; forall e :: e in w[..|w| - 1] ==> t - WINDOW_MS <= e.at <= t
  {
  }

  /** All but the newest entry, added up over the history. */
  lemma OlderTotal(w: seq<Entry>, h: seq<Record>)
    requires Suffix(w, h) && Sorted(w) && Narrow(w) && w != []
    ensures var t := h[|h| - 1].at; Total(w[..|w| - 1]) <= TokensIn(h[..|h| - 1], t - WINDOW_MS, t)
  {
    SuffixDropNewest(w, h);
    OlderInReach(w);
    var t := w[|w| - 1].at;
    SuffixTotal(w[..|w| - 1], h[..|h| - 1], t - WINDOW_MS, t);
  }

  lemma NewestBounds(maxTpm: nat, s: System)
    requires Inv(maxTpm, s) && s.window != []
    ensures || Total(s.window) <= maxTpm + LastCorrection(s.history)
            || Total(s.window[..|s.window| - 1]) == 0
  {
    assert PacedAt(maxTpm, s.history, |s.history| - 1);
    WindowSorted(s.window, s.history, s.clock);
    NewestBoundsSuffix(maxTpm, s.window, s.history);
  }

  lemma NewestBoundsSuffix(maxTpm: nat, w: seq<Entry>, h: seq<Record>)
    requires Suffix(w, h) && Sorted(w) && Narrow(w) && w != [] && PacedAt(maxTpm, h, |h| - 1)
    ensures Total(w) <= maxTpm + LastCorrection(h) || Total(w[..|w| - 1]) == 0
  {
    OlderTotal(w, h);
    SuffixDropNewest(w, h);
  }

  /** In every reachable state the deque is sorted by time, and its total exceeds `maxTpm` by at
      most the newest entry's own upward correction, unless every other entry counts for nothing. */
  lemma WindowIsBounded(maxTpm: nat, s: System)
    requires Reachable(maxTpm, s)
    ensures Sorted(s.window)
    ensures s.window != [] ==>
              && s.history != []
              && (|| Total(s.window) <= maxTpm + LastCorrection(s.history)
                  || Total(s.window[..|s.window| - 1]) == 0)
  {
    ReachableInv(maxTpm, s);
    WindowSorted(s.window, s.history, s.clock);
    if s.window != [] {
      NewestBounds(maxTpm, s);
    }
  }

  /** What `current_tpm` and every attempt read off the deque is exactly what the whole history
      admitted in the last 60 s. */
  lemma WindowReadsHistory(maxTpm: nat, s: System)
    requires Reachable(maxTpm, s)
    ensures Total(Evict(s.window, s.clock - 60_000)) == TokensIn(s.history, s.clock - 60_000, s.clock)
  {
    ReachableInv(maxTpm, s);
    EvictKeepsInv(maxTpm, s);
  }
}
