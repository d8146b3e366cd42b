/** Whose record a retroactive correction rewrites (src/rate_governor.rs:37-55), in every reachable state, and a
    run that needs all the room the correction is given. */
module GovernorCorrections {
  import opened Wrappers
  import opened RateGovernor
  import opened GovernorRuns

  // ----- reaching a state step by step -----

  lemma {:induction false} RunSnoc(maxTpm: nat, s: System, steps: seq<Step>, step: Step)
    requires Feasible(maxTpm, s, steps) && Enabled(Run(maxTpm, s, steps), step)
    ensures Feasible(maxTpm, s, steps + [step])
    ensures Run(maxTpm, s, steps + [step]) == Apply(maxTpm, Run(maxTpm, s, steps), step)
    decreases |steps|
  {
    if steps == [] {
      assert (steps + [step])[1..] == [];
    } else {
      assert (steps + [step])[1..] == steps[1..] + [step];
      RunSnoc(maxTpm, Apply(maxTpm, s, steps[0]), steps[1..], step);
    }
  }

  lemma ReachableStep(maxTpm: nat, s: System, step: Step)
    requires Reachable(maxTpm, s) && Enabled(s, step)
    ensures Reachable(maxTpm, Apply(maxTpm, s, step))
  {
    var clock: int, steps: seq<Step> :|
      Feasible(maxTpm, Initial(clock), steps) && Run(maxTpm, Initial(clock), steps) == s;
    RunSnoc(maxTpm, Initial(clock), steps, step);
  }

  lemma ReachableStart(maxTpm: nat, clock: int)
    ensures Reachable(maxTpm, Initial(clock))
  {
    assert Feasible(maxTpm, Initial(clock), []) && Run(maxTpm, Initial(clock), []) == Initial(clock);
  }

  // ----- whose entry a correction rewrites -----

  /** Where in the history client `c` was last admitted. */
  function LastOf(h: seq<Record>, c: int): Option<nat>
  {
    if h == [] then None
    else if h[|h| - 1].client == c then Some(|h| - 1)
    else LastOf(h[..|h| - 1], c)
  }

  lemma {:induction false} LastOfIsLast(h: seq<Record>, c: int, k: nat)
    ensures LastOf(h, c) == Some(k) <==>
            k < |h| && h[k].client == c && forall i :: k < i < |h| ==> h[i].client != c
  {
    if h != [] { LastOfIsLast(h[..|h| - 1], c, k); }
  }

  function Rewritten(h: seq<Record>, k: nat, actual: nat): seq<Record>
    requires k < |h|
  {
    h[k := h[k].(tokens := actual)]
  }

  ghost predicate CorrectsRecord(maxTpm: nat, s: System, c: int, actual: nat, k: nat)
    requires k < |s.history|
  {
    Apply(maxTpm, s, Correct(c, actual)).history == Rewritten(s.history, k, actual)
  }

  /** In every reachable state, what a correction for client `c` does: nothing when the deque is empty;
      otherwise it rewrites the newest record of the history, which is the deque's newest entry, and which
      is `c`'s if and only if no admission followed `c`'s latest. */
  lemma CorrectionRewritesNewest(maxTpm: nat, s: System, c: int, actual: nat)
    requires Reachable(maxTpm, s)
    ensures var s' := Apply(maxTpm, s, Correct(c, actual));
            var n := |s.history|;
            if s.window == [] then s' == s
            else
              && n > 0 && CorrectsRecord(maxTpm, s, c, actual, n - 1)
              && s'.window == s.window[..|s.window| - 1] + [Entry(s.history[n - 1].at, actual)]
              && (s.history[n - 1].client == c <==> LastOf(s.history, c) == Some(n - 1))
  {
    ReachableInv(maxTpm, s);
    if s.window != [] {
      SuffixDropNewest(s.window, s.history);
      LastOfIsLast(s.history, c, |s.history| - 1);
    }
  }

  /** So corrections for `c` rewrite `c`'s own latest admission if and only if no admission followed it and
      the deque is not empty. */
  lemma CorrectionHitsOwnExactly(maxTpm: nat, s: System, c: int, k: nat)
    requires Reachable(maxTpm, s) && k < |s.history| && LastOf(s.history, c) == Some(k)
    ensures (forall actual: nat :: CorrectsRecord(maxTpm, s, c, actual, k))
       <==> k == |s.history| - 1 && s.window != []
  {
    var newest := |s.history| - 1;
    forall actual: nat | k == newest && s.window != [] ensures CorrectsRecord(maxTpm, s, c, actual, k) {
      CorrectionRewritesNewest(maxTpm, s, c, actual);
    }
    if s.window == [] {
      var actual := s.history[k].tokens + 1;
      assert Rewritten(s.history, k, actual)[k].tokens == actual;
      assert !CorrectsRecord(maxTpm, s, c, actual, k);
    } else if k < newest {
      var actual := s.history[newest].tokens + 1;
      CorrectionRewritesNewest(maxTpm, s, c, actual);
      assert Rewritten(s.history, newest, actual)[newest].tokens == actual;
      assert Rewritten(s.history, k, actual)[newest] == s.history[newest];
      assert !CorrectsRecord(maxTpm, s, c, actual, k);
    }
  }

  // ----- two clients -----

  /** `s` after both of its waiting clients were admitted. */
  function BothAdmitted(s: System, c1: int, c2: int, n1: nat, n2: nat): System
  {
    System(s.clock, [Entry(s.clock, n1), Entry(s.clock, n2)], s.waiting - {c1} - {c2},
           s.history + [Record(c1, s.clock, n1, n1)] + [Record(c2, s.clock, n2, n2)])
  }

  /** And after the first of them was. */
  function OneAdmitted(s: System, c1: int, n1: nat): System
  {
    System(s.clock, [Entry(s.clock, n1)], s.waiting - {c1}, s.history + [Record(c1, s.clock, n1, n1)])
  }

  lemma FirstTry(maxTpm: nat, s: System, c1: int, n1: nat)
    requires n1 < maxTpm && s.window == [] && c1 in s.waiting && s.waiting[c1] == Waiting(n1, s.clock)
    ensures Apply(maxTpm, s, Try(c1)) == OneAdmitted(s, c1, n1)
  {
    AdmitsWhenEmpty(maxTpm, s.clock, n1);
  }

  lemma SecondTry(maxTpm: nat, s: System, c1: int, c2: int, n1: nat, n2: nat)
    requires n2 < maxTpm && n1 + n2 <= maxTpm && c1 != c2
    requires c2 in s.waiting && s.waiting[c2] == Waiting(n2, s.clock)
    ensures Apply(maxTpm, OneAdmitted(s, c1, n1), Try(c2)) == BothAdmitted(s, c1, c2, n1, n2)
  {
    AdmitsSecond(maxTpm, s.clock, n1, n2);
  }

  lemma BothAdmittedReachable(maxTpm: nat, s: System, c1: int, c2: int, n1: nat, n2: nat)
    requires Reachable(maxTpm, s) && c1 != c2 && n1 < maxTpm && n2 < maxTpm && n1 + n2 <= maxTpm
    requires s.window == [] && s.waiting == map[c1 := Waiting(n1, s.clock), c2 := Waiting(n2, s.clock)]
    ensures Reachable(maxTpm, BothAdmitted(s, c1, c2, n1, n2))
  {
    FirstTry(maxTpm, s, c1, n1);
    SecondTry(maxTpm, s, c1, c2, n1, n2);
    ReachableStep(maxTpm, s, Try(c1));
    ReachableStep(maxTpm, OneAdmitted(s, c1, n1), Try(c2));
  }

  /** Client 1 and client 2 are admitted at once; then the correction that client 1's response brings
      rewrites client 2's record. */
  lemma CorrectionMayHitAnotherClient(maxTpm: nat, s: System, c1: int, c2: int, n1: nat, n2: nat, actual: nat)
    requires Reachable(maxTpm, s) && c1 != c2 && n1 < maxTpm && n2 < maxTpm && n1 + n2 <= maxTpm
    requires s.window == [] && s.waiting == map[c1 := Waiting(n1, s.clock), c2 := Waiting(n2, s.clock)]
    ensures var s2 := BothAdmitted(s, c1, c2, n1, n2);
            && Reachable(maxTpm, s2)
            && LastOf(s2.history, c1) == Some(|s.history|)
            && Apply(maxTpm, s2, Correct(c1, actual)).history ==
               s.history + [Record(c1, s.clock, n1, n1)] + [Record(c2, s.clock, n2, actual)]
  {
    BothAdmittedReachable(maxTpm, s, c1, c2, n1, n2);
  }

  function TwoWaiting(clock: int, c1: int, c2: int, n1: nat, n2: nat): System
  {
    System(clock, [], map[c1 := Waiting(n1, clock), c2 := Waiting(n2, clock)], [])
  }

  /** Its starting state is reached by two arrivals. */
  lemma TwoWaitingReachable(maxTpm: nat, clock: int, c1: int, c2: int, n1: nat, n2: nat)
    requires c1 != c2
    ensures Reachable(maxTpm, TwoWaiting(clock, c1, c2, n1, n2))
  {
    ReachableStart(maxTpm, clock);
    ReachableStep(maxTpm, Initial(clock), Arrive(c1, n1));
    var s1 := Apply(maxTpm, Initial(clock), Arrive(c1, n1));
    ReachableStep(maxTpm, s1, Arrive(c2, n2));
    assert Apply(maxTpm, s1, Arrive(c2, n2)) == TwoWaiting(clock, c1, c2, n1, n2);
  }

  /** The bound of `EveryIntervalIsPaced` is attained: two admissions fill the limit, and the newest one's
      correction comes on top. */
  lemma BoundIsAttained(maxTpm: nat, clock: int, c1: int, c2: int, n1: nat, n2: nat, extra: nat)
    returns (s: System)
    requires c1 != c2 && 0 < n1 && 0 < n2 && n1 + n2 == maxTpm
    ensures Reachable(maxTpm, s)
    ensures TokensIn(s.history, clock, clock + 60_000) == maxTpm + extra
    ensures NewestCorrection(s.history, clock, clock + 60_000) == extra
    ensures NonZeroIn(s.history, clock, clock + 60_000) == 2
  {
    var s0 := TwoWaiting(clock, c1, c2, n1, n2);
    TwoWaitingReachable(maxTpm, clock, c1, c2, n1, n2);
    CorrectionMayHitAnotherClient(maxTpm, s0, c1, c2, n1, n2, n2 + extra);
    var s2 := BothAdmitted(s0, c1, c2, n1, n2);
    ReachableStep(maxTpm, s2, Correct(c1, n2 + extra));
    s := Apply(maxTpm, s2, Correct(c1, n2 + extra));
    var r1, r2 := Record(c1, clock, n1, n1), Record(c2, clock, n2, n2 + extra);
    assert s.history == [r1] + [r2] by { assert [] + [r1] == [r1]; }
    SumOfTwo(r1, r2, clock, clock + WINDOW_MS);
  }

  lemma SumOfTwo(r1: Record, r2: Record, lo: int, hi: int)
    requires In(r1, lo, hi) && In(r2, lo, hi)
    ensures TokensIn([r1] + [r2], lo, hi) == r1.tokens + r2.tokens
    ensures NonZeroIn([r1] + [r2], lo, hi) == (if r1.tokens > 0 then 1 else 0) + (if r2.tokens > 0 then 1 else 0)
    ensures NewestCorrection([r1] + [r2], lo, hi) == if r2.tokens > r2.estimate then r2.tokens - r2.estimate else 0
  {
    assert [r1] + [r2] == [r1, r2] && [r1, r2][..1] == [r1];
    assert [r1][..0] == [];
    assert TokensIn([r1], lo, hi) == r1.tokens;
    assert NonZeroIn([r1], lo, hi) == if r1.tokens > 0 then 1 else 0;
  }

  lemma AdmitsWhenEmpty(maxTpm: nat, now: int, n: nat)
    requires n < maxTpm
    ensures Attempt(maxTpm, [], now, n) == ([Entry(now, n)], Admitted)
  {
    assert [] + [Entry(now, n)] == [Entry(now, n)];
  }

  lemma AdmitsSecond(maxTpm: nat, now: int, n1: nat, n2: nat)
    requires n1 + n2 <= maxTpm && n2 < maxTpm
    ensures Attempt(maxTpm, [Entry(now, n1)], now, n2) == ([Entry(now, n1), Entry(now, n2)], Admitted)
  {
    assert [Entry(now, n1)][..0] == [];
    assert Total([Entry(now, n1)]) == n1;
    assert Evict([Entry(now, n1)], now - WINDOW_MS) == [Entry(now, n1)];
    assert [Entry(now, n1)] + [Entry(now, n2)] == [Entry(now, n1), Entry(now, n2)];
  }
}
