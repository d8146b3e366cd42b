/** Tiered routing (src/router.rs:115-205, 360-408) over the provider registry and provider health
    (src/provider.rs). Prices are reals; instants are integer milliseconds. */
module Routing {
  import opened Wrappers

  datatype Tier = Free | Budget | Mid | Premium | Ultra {
    function Rank(): nat
    {
      match this
      case Free => 0
      case Budget => 1
      case Mid => 2
      case Premium => 3
      case Ultra => 4
    }
  }

  function MaxTier(a: Tier, b: Tier): Tier
  {
    if b.Rank() > a.Rank() then b else a
  }

  datatype TaskType =
    | Planning | Debugging | ToolResult | SimpleEdit | FileRead | CodeGeneration | Default
    | Architecture | Refactoring | Testing | Security | Migration | Documentation

  datatype Signals = Signals(
    blastRadiusScore: Option<real>,
    taskType: TaskType,
    recentErrorCount: nat,
    estimatedTokens: nat,
    requiresToolSupport: bool)

  // ----- provider health -----

  datatype HealthState =
    | Healthy
    | Degraded(errorCount: nat, lastError: int)
    | RateLimited(until: int)
    | Down(since: int, lastCheck: int)

  predicate IsHealthy(h: HealthState, now: int)
  {
    match h
    case Healthy => true
    case Degraded(_, _) => true
    case RateLimited(until) => now >= until
    case Down(since, _) => ElapsedSecs(since, now) > 600
  }

  /** Whole seconds since an instant, 0 if it lies ahead. */
  function ElapsedSecs(since: int, now: int): int
  {
    if now >= since then (now - since) / 1000 else 0
  }

  function AfterError(h: HealthState, now: int): HealthState
  {
    match h
    case Healthy => Degraded(1, now)
    case Degraded(n, _) => if n + 1 >= 3 then Down(now, now) else Degraded(n + 1, now)
    case RateLimited(_) => h
    case Down(since, _) => Down(since, now)
  }

  /** What is reported about a provider, and when. */
  datatype Mark = Recovered | Failed(at: int) | Limited(at: int, retryAfterSecs: nat) | TakenDown(at: int)

  function AfterMark(h: HealthState, m: Mark): HealthState
  {
    match m
    case Recovered => Healthy
    case Failed(at) => AfterError(h, at)
    case Limited(at, secs) => RateLimited(at + 1000 * secs)
    case TakenDown(at) => Down(at, at)
  }

  class ProviderHealth {
    var health: HealthState

    constructor ()
      ensures health == Healthy
    {
      health := Healthy;
    }

    method MarkHealthy()
      modifies this
      ensures health == AfterMark(old(health), Recovered)
    {
      health := Healthy;
    }

    method MarkError(now: int)
      modifies this
      ensures health == AfterMark(old(health), Failed(now))
    {
      match health {
        case Healthy => health := Degraded(1, now);
        case Degraded(n, _) =>
          var count := n + 1;
          if count >= 3 {
            health := Down(now, now);
          } else {
            health := Degraded(count, now);
          }
        case RateLimited(_) =>
        case Down(since, _) => health := Down(since, now);
      }
    }

    method MarkRateLimited(now: int, retryAfterSecs: nat)
      modifies this
      ensures health == AfterMark(old(health), Limited(now, retryAfterSecs))
      ensures forall t :: IsHealthy(health, t) <==> t >= now + 1000 * retryAfterSecs
    {
      health := RateLimited(now + 1000 * retryAfterSecs);
    }

    method MarkDown(now: int)
      modifies this
      ensures health == AfterMark(old(health), TakenDown(now))
    {
      health := Down(now, now);
    }
  }

  function AfterErrors(h: HealthState, times: seq<int>): HealthState
  {
    if times == [] then h else AfterError(AfterErrors(h, times[..|times| - 1]), times[|times| - 1])
  }

  /** The circuit breaker: errors in a row leave a healthy provider in use until the third, which takes
      it out for 601 s; later errors do not extend that. */
  lemma {:induction false} ThreeStrikes(times: seq<int>, now: int)
    ensures IsHealthy(AfterErrors(Healthy, times), now) <==> |times| < 3 || now - times[2] >= 601_000
    ensures |times| >= 3 ==> AfterErrors(Healthy, times) == Down(times[2], times[|times| - 1])
    ensures 0 < |times| < 3 ==> AfterErrors(Healthy, times) == Degraded(|times|, times[|times| - 1])
  {
    if times != [] { ThreeStrikes(times[..|times| - 1], now); }
  }

  function AfterMarks(marks: seq<Mark>): HealthState
  {
    if marks == [] then Healthy else AfterMark(AfterMarks(marks[..|marks| - 1]), marks[|marks| - 1])
  }

  /** When the errors were since anything else was reported. */
  function ErrorsSince(marks: seq<Mark>): seq<int>
  {
    if marks == [] || !marks[|marks| - 1].Failed? then []
    else ErrorsSince(marks[..|marks| - 1]) + [marks[|marks| - 1].at]
  }

  /** The last report that was not an error; a provider starts as if it had recovered. */
  function LastOther(marks: seq<Mark>): Mark
  {
    if marks == [] then Recovered
    else if marks[|marks| - 1].Failed? then LastOther(marks[..|marks| - 1])
    else marks[|marks| - 1]
  }

  lemma {:induction false} MarksAreErrors(marks: seq<Mark>)
    ensures AfterMarks(marks) == AfterErrors(AfterMark(Healthy, LastOther(marks)), ErrorsSince(marks))
    ensures !LastOther(marks).Failed?
  {
    if marks != [] {
      var k := |marks| - 1;
      MarksAreErrors(marks[..k]);
      if marks[k].Failed? {
        var times := ErrorsSince(marks[..k]);
        assert (times + [marks[k].at])[..|times|] == times;
      }
    }
  }

  /** Errors neither lift a rate limit nor move the start of an outage. */
  lemma {:induction false} ErrorsKeepOutage(h: HealthState, times: seq<int>)
    requires h.RateLimited? || h.Down?
    ensures var h' := AfterErrors(h, times);
            (h.RateLimited? ==> h' == h) && (h.Down? ==> h'.Down? && h'.since == h.since)
  {
    if times != [] { ErrorsKeepOutage(h, times[..|times| - 1]); }
  }

  /** After every sequence of reports: in use again 601 s after it was taken out, by the third error since
      it last recovered or outright, whatever errors follow; at the retry time after a rate limit; and
      in use otherwise. */
  lemma InUseExactly(marks: seq<Mark>, now: int)
    ensures var times := ErrorsSince(marks);
            IsHealthy(AfterMarks(marks), now) <==>
            match LastOther(marks)
            case Recovered => |times| < 3 || now - times[2] >= 601_000
            case Limited(at, secs) => now >= at + 1000 * secs
            case TakenDown(at) => now - at >= 601_000
            case Failed(_) => false
  {
    MarksAreErrors(marks);
    var (h, times) := (AfterMark(Healthy, LastOther(marks)), ErrorsSince(marks));
    if h == Healthy { ThreeStrikes(times, now); } else { ErrorsKeepOutage(h, times); }
  }

  // ----- the registry -----

  datatype Provider = Provider(
    id: string, tier: Tier, inputPrice: real, contextWindow: nat, supportsTools: bool, health: HealthState)

  predicate Eligible(p: Provider, minTier: Tier, minContext: nat, needsTools: bool, now: int)
  {
    && p.tier.Rank() >= minTier.Rank()
    && p.contextWindow >= minContext
    && (needsTools ==> p.supportsTools)
    && IsHealthy(p.health, now)
  }

  /** The sort key order: tier first, then input price. */
  predicate Before(a: Provider, b: Provider)
  {
    a.tier.Rank() < b.tier.Rank() || (a.tier == b.tier && a.inputPrice < b.inputPrice)
  }

  function Candidates(ps: seq<Provider>, minTier: Tier, minContext: nat, needsTools: bool, now: int): seq<Provider>
  {
    if ps == [] then []
    else
      var p := ps[|ps| - 1];
      Candidates(ps[..|ps| - 1], minTier, minContext, needsTools, now) +
      if Eligible(p, minTier, minContext, needsTools, now) then [p] else []
  }

  /** Insert after everything that is not strictly behind. */
  function InsertStable(sorted: seq<Provider>, p: Provider): seq<Provider>
  {
    if sorted == [] || !Before(p, sorted[|sorted| - 1]) then sorted + [p]
    else InsertStable(sorted[..|sorted| - 1], p) + [sorted[|sorted| - 1]]
  }

  /** A stable sort by tier, then input price. */
  function SortStable(ps: seq<Provider>): seq<Provider>
  {
    if ps == [] then [] else InsertStable(SortStable(ps[..|ps| - 1]), ps[|ps| - 1])
  }

  function First(ps: seq<Provider>): Option<Provider>
  {
    if ps == [] then None else Some(ps[0])
  }

  method CheapestHealthy(ps: seq<Provider>, minTier: Tier, minContext: nat, needsTools: bool, now: int)
    returns (r: Option<Provider>)
    ensures r.None? <==> forall i :: 0 <= i < |ps| ==> !Eligible(ps[i], minTier, minContext, needsTools, now)
    ensures r.Some? ==> exists i: nat :: EarliestCheapest(ps, i, minTier, minContext, needsTools, now) && ps[i] == r.value
    ensures r == First(SortStable(Candidates(ps, minTier, minContext, needsTools, now)))
  {
    var candidates := [];
    for i := 0 to |ps|
      invariant candidates == Candidates(ps[..i], minTier, minContext, needsTools, now)
    {
      assert ps[..i + 1][..i] == ps[..i];
      if Eligible(ps[i], minTier, minContext, needsTools, now) { candidates := candidates + [ps[i]]; }
    }
    assert ps[..|ps|] == ps;
    var sorted := SortStable(candidates);
    r := First(sorted);
    FirstIsEarliestCheapest(ps, minTier, minContext, needsTools, now);
  }

  /** The earliest-registered minimum of (tier, input price) among the eligible providers. */
  ghost predicate EarliestCheapest(ps: seq<Provider>, i: nat, minTier: Tier, minContext: nat, needsTools: bool, now: int)
  {
    && i < |ps| && Eligible(ps[i], minTier, minContext, needsTools, now)
    && forall j :: 0 <= j < |ps| && Eligible(ps[j], minTier, minContext, needsTools, now) ==> NoBetter(ps, i, j)
  }

  /** Provider j is of a higher tier than i; or of the same and dearer; or as dear and not registered earlier. */
  ghost predicate NoBetter(ps: seq<Provider>, i: nat, j: nat)
    requires i < |ps| && j < |ps|
  {
    || ps[i].tier.Rank() < ps[j].tier.Rank()
    || (ps[i].tier == ps[j].tier
        && (ps[i].inputPrice < ps[j].inputPrice || (ps[i].inputPrice == ps[j].inputPrice && i <= j)))
  }

  ghost predicate LeastFirst(sorted: seq<Provider>)
  {
    forall i :: 0 <= i < |sorted| ==> !Before(sorted[i], sorted[0])
  }

  lemma {:induction false} InsertFirst(sorted: seq<Provider>, p: Provider)
    requires LeastFirst(sorted)
    ensures InsertStable(sorted, p) != [] && LeastFirst(InsertStable(sorted, p))
    ensures InsertStable(sorted, p)[0] == if sorted == [] || Before(p, sorted[0]) then p else sorted[0]
  {
    if sorted != [] && Before(p, sorted[|sorted| - 1]) {
      InsertFirst(sorted[..|sorted| - 1], p);
    }
  }

  ghost predicate SortFinds(ps: seq<Provider>, minTier: Tier, minContext: nat, needsTools: bool, now: int)
  {
    var sorted := SortStable(Candidates(ps, minTier, minContext, needsTools, now));
    && LeastFirst(sorted)
    && (sorted == [] <==> NoneEligible(ps, minTier, minContext, needsTools, now))
    && (sorted != [] ==> IsEarliestCheapest(ps, sorted[0], minTier, minContext, needsTools, now))
  }

  ghost predicate NoneEligible(ps: seq<Provider>, minTier: Tier, minContext: nat, needsTools: bool, now: int)
  {
    forall i :: 0 <= i < |ps| ==> !Eligible(ps[i], minTier, minContext, needsTools, now)
  }

  ghost predicate IsEarliestCheapest(ps: seq<Provider>, p: Provider, minTier: Tier, minContext: nat, needsTools: bool,
                                     now: int)
  {
    exists i: nat :: EarliestCheapest(ps, i, minTier, minContext, needsTools, now) && ps[i] == p
  }

  lemma EarliestWithMore(ps: seq<Provider>, i: nat, p: Provider, minTier: Tier, minContext: nat,
                         needsTools: bool, now: int)
    requires EarliestCheapest(ps, i, minTier, minContext, needsTools, now)
    ensures !Eligible(p, minTier, minContext, needsTools, now) || !Before(p, ps[i]) ==>
              EarliestCheapest(ps + [p], i, minTier, minContext, needsTools, now)
    ensures Eligible(p, minTier, minContext, needsTools, now) && Before(p, ps[i]) ==>
              EarliestCheapest(ps + [p], |ps|, minTier, minContext, needsTools, now)
  {
  }

  lemma {:induction false} FirstIsEarliestCheapest(ps: seq<Provider>, minTier: Tier, minContext: nat,
                                                   needsTools: bool, now: int)
    ensures SortFinds(ps, minTier, minContext, needsTools, now)
  {
    if ps != [] {
      var k := |ps| - 1;
      var (before, p) := (ps[..k], ps[k]);
      FirstIsEarliestCheapest(before, minTier, minContext, needsTools, now);
      assert ps == before + [p];
      InsertFirst(SortStable(Candidates(before, minTier, minContext, needsTools, now)), p);
      CandidatesStep(before, p, minTier, minContext, needsTools, now);
      EarliestStep(before, p, SortStable(Candidates(before, minTier, minContext, needsTools, now)),
                   minTier, minContext, needsTools, now);
    }
  }

  /** One more provider. */
  lemma EarliestStep(ps: seq<Provider>, p: Provider, found: seq<Provider>, minTier: Tier, minContext: nat,
                     needsTools: bool, now: int)
    requires found == [] <==> NoneEligible(ps, minTier, minContext, needsTools, now)
    requires found != [] ==> IsEarliestCheapest(ps, found[0], minTier, minContext, needsTools, now)
    ensures !Eligible(p, minTier, minContext, needsTools, now) ==>
              && (found == [] <==> NoneEligible(ps + [p], minTier, minContext, needsTools, now))
              && (found != [] ==> IsEarliestCheapest(ps + [p], found[0], minTier, minContext, needsTools, now))
    ensures Eligible(p, minTier, minContext, needsTools, now) ==>
              && !NoneEligible(ps + [p], minTier, minContext, needsTools, now)
              && IsEarliestCheapest(ps + [p], if found == [] || Before(p, found[0]) then p else found[0],
                                    minTier, minContext, needsTools, now)
  {
    var all := ps + [p];
    assert all[|ps|] == p;
    NoneStep(ps, p, minTier, minContext, needsTools, now);
    if found != [] {
      var i: nat :| EarliestCheapest(ps, i, minTier, minContext, needsTools, now) && ps[i] == found[0];
      EarliestWithMore(ps, i, p, minTier, minContext, needsTools, now);
      assert all[i] == ps[i];
    } else if Eligible(p, minTier, minContext, needsTools, now) {
      assert EarliestCheapest(all, |ps|, minTier, minContext, needsTools, now);
    }
  }

  lemma NoneStep(ps: seq<Provider>, p: Provider, minTier: Tier, minContext: nat, needsTools: bool, now: int)
    ensures NoneEligible(ps + [p], minTier, minContext, needsTools, now) <==>
            NoneEligible(ps, minTier, minContext, needsTools, now) && !Eligible(p, minTier, minContext, needsTools, now)
  {
    var all := ps + [p];
    assert all[|ps|] == p;
    assert forall i :: 0 <= i < |ps| ==> all[i] == ps[i];
  }

  lemma CandidatesStep(ps: seq<Provider>, p: Provider, minTier: Tier, minContext: nat, needsTools: bool, now: int)
    ensures SortStable(Candidates(ps + [p], minTier, minContext, needsTools, now)) ==
            var found := SortStable(Candidates(ps, minTier, minContext, needsTools, now));
            if Eligible(p, minTier, minContext, needsTools, now) then InsertStable(found, p) else found
  {
    assert (ps + [p])[..|ps|] == ps;
    var cs := Candidates(ps, minTier, minContext, needsTools, now);
    assert (cs + [p])[..|cs|] == cs;
    assert cs + [] == cs;
  }

  // ----- the minimum tier -----

  function TaskTier(t: TaskType): Tier
  {
    match t
    case Planning => Premium
    case Debugging => Mid
    case ToolResult => Free
    case FileRead => Free
    case SimpleEdit => Budget
    case CodeGeneration => Mid
    case Default => Mid
    case Architecture => Premium
    case Refactoring => Premium
    case Testing => Mid
    case Security => Premium
    case Migration => Premium
    case Documentation => Budget
  }

  function ErrorTier(count: nat): Tier
  {
    if count >= 3 then Premium else Free
  }

  function BlastTier(score: Option<real>, threshold: real): Tier
  {
    if score.None? then Free
    else if score.value > threshold + 0.2 then Premium
    else if score.value > threshold then Mid
    else Free
  }

  function ContextTier(tokens: nat): Tier
  {
    if tokens > 100_000 then Premium else if tokens > 50_000 then Mid else Free
  }

  /** The highest tier any single signal asks for. */
  function MinTier(s: Signals, threshold: real): Tier
  {
    MaxTier(MaxTier(TaskTier(s.taskType), ErrorTier(s.recentErrorCount)),
            MaxTier(BlastTier(s.blastRadiusScore, threshold), ContextTier(s.estimatedTokens)))
  }

  method DetermineMinTier(s: Signals, threshold: real) returns (minTier: Tier)
    ensures minTier == MinTier(s, threshold)
  {
    minTier := Free;
    var taskTier := TaskTier(s.taskType);
    if taskTier.Rank() > minTier.Rank() { minTier := taskTier; }
    if s.recentErrorCount >= 3 {
      if Premium.Rank() > minTier.Rank() { minTier := Premium; }
    }
    if s.blastRadiusScore.Some? {
      var score := s.blastRadiusScore.value;
      var blastTier := if score > threshold + 0.2 then Premium else if score > threshold then Mid else Free;
      if blastTier.Rank() > minTier.Rank() { minTier := blastTier; }
    }
    if s.estimatedTokens > 100_000 {
      if Premium.Rank() > minTier.Rank() { minTier := Premium; }
    } else if s.estimatedTokens > 50_000 {
      if Mid.Rank() > minTier.Rank() { minTier := Mid; }
    }
  }

  // ----- the decision -----

  /** What of a request the decision looks at besides its signals. */
  datatype Request = Request(hasBody: bool, asksForDeepseek: bool, signals: Signals)

  datatype Decision = Decision(provider: string, tier: Tier, tokens: nat, config: Option<Provider>)

  function Lookup(ps: seq<Provider>, id: string): Option<Provider>
  {
    if ps == [] then None else if ps[0].id == id then Some(ps[0]) else Lookup(ps[1..], id)
  }

  function Route(ps: seq<Provider>, s: Signals, threshold: real, now: int): Decision
  {
    var p := First(SortStable(Candidates(ps, MinTier(s, threshold), s.estimatedTokens, s.requiresToolSupport, now)));
    if p.Some? then Decision(p.value.id, p.value.tier, s.estimatedTokens, p)
    else Decision("claude", Premium, s.estimatedTokens, Lookup(ps, "claude"))
  }

  function Decide(ps: seq<Provider>, r: Request, forced: Option<string>, threshold: real, now: int): Decision
  {
    if forced.Some? then
      var tokens := if r.hasBody then r.signals.estimatedTokens else 0;
      var p := Lookup(ps, forced.value);
      if p.Some? then Decision(p.value.id, p.value.tier, tokens, p)
      else if forced.value == "deepseek" then Decision("deepseek", Mid, tokens, None)
      else Decision("claude", Premium, tokens, None)
    else if !r.hasBody then Decision("claude", Premium, 0, Lookup(ps, "claude"))
    else if r.asksForDeepseek then Decision("deepseek", Mid, r.signals.estimatedTokens, Lookup(ps, "deepseek"))
    else Route(ps, r.signals, threshold, now)
  }

  method DecideWithRegistry(ps: seq<Provider>, r: Request, forced: Option<string>, threshold: real, now: int)
    returns (d: Decision)
    ensures d == Decide(ps, r, forced, threshold, now)
  {
    if forced.Some? {
      var tokens := if r.hasBody then r.signals.estimatedTokens else 0;
      var p := Lookup(ps, forced.value);
      if p.Some? { return Decision(p.value.id, p.value.tier, tokens, p); }
      if forced.value == "deepseek" { return Decision("deepseek", Mid, tokens, None); }
      return Decision("claude", Premium, tokens, None);
    }
    if !r.hasBody { return Decision("claude", Premium, 0, Lookup(ps, "claude")); }
    if r.asksForDeepseek { return Decision("deepseek", Mid, r.signals.estimatedTokens, Lookup(ps, "deepseek")); }
    var minTier := DetermineMinTier(r.signals, threshold);
    var p := CheapestHealthy(ps, minTier, r.signals.estimatedTokens, r.signals.requiresToolSupport, now);
    if p.Some? { return Decision(p.value.id, p.value.tier, r.signals.estimatedTokens, p); }
    return Decision("claude", Premium, r.signals.estimatedTokens, Lookup(ps, "claude"));
  }

  /** The routed provider is the earliest-registered lexicographic minimum of (tier, input price) among
      the eligible ones, and the Claude fallback is taken exactly when none is eligible. */
  lemma RouteChooses(ps: seq<Provider>, s: Signals, threshold: real, now: int)
    ensures var d := Route(ps, s, threshold, now);
            var minTier := MinTier(s, threshold);
            if forall i :: 0 <= i < |ps| ==> !Eligible(ps[i], minTier, s.estimatedTokens, s.requiresToolSupport, now)
            then d == Decision("claude", Premium, s.estimatedTokens, Lookup(ps, "claude"))
            else exists i: nat :: EarliestCheapest(ps, i, minTier, s.estimatedTokens, s.requiresToolSupport, now)
                          && d == Decision(ps[i].id, ps[i].tier, s.estimatedTokens, Some(ps[i]))
  {
    FirstIsEarliestCheapest(ps, MinTier(s, threshold), s.estimatedTokens, s.requiresToolSupport, now);
  }

  // ----- monotonicity -----

  /** The same task with every other signal at least as demanding. */
  ghost predicate Raised(s: Signals, s': Signals)
  {
    && s.taskType == s'.taskType
    && s.recentErrorCount <= s'.recentErrorCount
    && s.estimatedTokens <= s'.estimatedTokens
    && (s.requiresToolSupport ==> s'.requiresToolSupport)
    && (s.blastRadiusScore.Some? ==>
          s'.blastRadiusScore.Some? && s.blastRadiusScore.value <= s'.blastRadiusScore.value)
  }

  lemma MinTierRises(s: Signals, s': Signals, threshold: real)
    requires Raised(s, s')
    ensures MinTier(s, threshold).Rank() <= MinTier(s', threshold).Rank() <= Premium.Rank()
  {
    assert BlastTier(s.blastRadiusScore, threshold).Rank() <= BlastTier(s'.blastRadiusScore, threshold).Rank();
  }

  lemma EligibleForLess(p: Provider, s: Signals, s': Signals, threshold: real, now: int)
    requires Raised(s, s')
    requires Eligible(p, MinTier(s', threshold), s'.estimatedTokens, s'.requiresToolSupport, now)
    ensures Eligible(p, MinTier(s, threshold), s.estimatedTokens, s.requiresToolSupport, now)
  {
    MinTierRises(s, s', threshold);
  }

  /** No eligible provider is of a lower tier than the decision. */
  lemma RouteIsLowest(ps: seq<Provider>, s: Signals, threshold: real, now: int, i: nat)
    requires i < |ps| && Eligible(ps[i], MinTier(s, threshold), s.estimatedTokens, s.requiresToolSupport, now)
    ensures Route(ps, s, threshold, now).tier.Rank() <= ps[i].tier.Rank()
  {
    RouteChooses(ps, s, threshold, now);
  }

  lemma RouteRises(ps: seq<Provider>, s: Signals, s': Signals, threshold: real, now: int)
    requires Raised(s, s') && Route(ps, s, threshold, now).tier.Rank() <= Premium.Rank()
    ensures Route(ps, s, threshold, now).tier.Rank() <= Route(ps, s', threshold, now).tier.Rank()
  {
    RouteChooses(ps, s', threshold, now);
    var m' := MinTier(s', threshold);
    if exists i: nat :: EarliestCheapest(ps, i, m', s'.estimatedTokens, s'.requiresToolSupport, now)
                     && Route(ps, s', threshold, now).tier == ps[i].tier {
      var i: nat :| EarliestCheapest(ps, i, m', s'.estimatedTokens, s'.requiresToolSupport, now)
                 && Route(ps, s', threshold, now).tier == ps[i].tier;
      EligibleForLess(ps[i], s, s', threshold, now);
      RouteIsLowest(ps, s, threshold, now, i);
    }
  }

  ghost predicate Monotone(ps: seq<Provider>, threshold: real, now: int)
  {
    forall s, s' :: Raised(s, s') ==>
      Route(ps, s, threshold, now).tier.Rank() <= Route(ps, s', threshold, now).tier.Rank()
  }

  predicate Covers(p: Provider, u: Provider, now: int)
  {
    && p.tier == Premium && IsHealthy(p.health, now)
    && p.contextWindow >= u.contextWindow && (u.supportsTools ==> p.supportsTools)
  }

  /** Every healthy provider above Premium has a healthy Premium one that can do all it can. */
  ghost predicate UltraCovered(ps: seq<Provider>, now: int)
  {
    forall i :: 0 <= i < |ps| && ps[i].tier == Ultra && IsHealthy(ps[i].health, now) ==>
      exists j :: 0 <= j < |ps| && Covers(ps[j], ps[i], now)
  }

  lemma CoveredStaysLow(ps: seq<Provider>, s: Signals, threshold: real, now: int)
    requires UltraCovered(ps, now)
    ensures Route(ps, s, threshold, now).tier.Rank() <= Premium.Rank()
  {
    MinTierRises(s, s, threshold);
    RouteChooses(ps, s, threshold, now);
    if Route(ps, s, threshold, now).tier == Ultra {
      var i: nat :| EarliestCheapest(ps, i, MinTier(s, threshold), s.estimatedTokens, s.requiresToolSupport, now)
                 && ps[i].tier == Ultra;
      var j :| 0 <= j < |ps| && Covers(ps[j], ps[i], now);
      RouteIsLowest(ps, s, threshold, now, j);
    }
  }

  function LargestWindow(ps: seq<Provider>): (w: nat)
    ensures forall i :: 0 <= i < |ps| ==> ps[i].contextWindow <= w
  {
    if ps == [] then 0
    else
      var w := LargestWindow(ps[..|ps| - 1]);
      if ps[|ps| - 1].contextWindow > w then ps[|ps| - 1].contextWindow else w
  }

  function PlanningFor(u: Provider, tokens: nat): Signals
  {
    Signals(None, Planning, 0, tokens, u.supportsTools)
  }

  /** An uncovered provider above Premium is chosen for a request of just its size, and not for one that
      fits nowhere. */
  lemma UncoveredBreaks(ps: seq<Provider>, threshold: real, now: int, i: nat)
    requires i < |ps| && ps[i].tier == Ultra && IsHealthy(ps[i].health, now)
    requires forall j :: 0 <= j < |ps| ==> !Covers(ps[j], ps[i], now)
    ensures !Monotone(ps, threshold, now)
  {
    var s := PlanningFor(ps[i], ps[i].contextWindow);
    var s' := PlanningFor(ps[i], LargestWindow(ps) + 1);
    assert Raised(s, s');
    RouteChooses(ps, s, threshold, now);
    RouteChooses(ps, s', threshold, now);
    assert MinTier(s, threshold) == Premium && MinTier(s', threshold) == Premium;
    assert Eligible(ps[i], Premium, s.estimatedTokens, s.requiresToolSupport, now);
    assert Route(ps, s', threshold, now).tier == Premium;
    var k: nat :| EarliestCheapest(ps, k, Premium, s.estimatedTokens, s.requiresToolSupport, now)
               && Route(ps, s, threshold, now).tier == ps[k].tier;
    assert !Covers(ps[k], ps[i], now);
    assert ps[k].tier == Ultra;
  }

  /** Routing is monotone end to end (more blast radius, errors, tokens or tools never lower the tier
      of the decision for a task) if and only if every healthy provider above Premium is covered by a
      healthy Premium one; in particular when there is none above Premium. */
  lemma MonotoneExactly(ps: seq<Provider>, threshold: real, now: int)
    ensures Monotone(ps, threshold, now) <==> UltraCovered(ps, now)
  {
    if UltraCovered(ps, now) {
      forall s, s' | Raised(s, s')
        ensures Route(ps, s, threshold, now).tier.Rank() <= Route(ps, s', threshold, now).tier.Rank()
      {
        CoveredStaysLow(ps, s, threshold, now);
        RouteRises(ps, s, s', threshold, now);
      }
    } else {
      var i :| 0 <= i < |ps| && ps[i].tier == Ultra && IsHealthy(ps[i].health, now)
            && !exists j :: 0 <= j < |ps| && Covers(ps[j], ps[i], now);
      UncoveredBreaks(ps, threshold, now, i);
    }
  }

  /** The same kind of request with more demanding signals. */
  ghost predicate Harder(r: Request, r': Request)
  {
    r.hasBody == r'.hasBody && r.asksForDeepseek == r'.asksForDeepseek && Raised(r.signals, r'.signals)
  }

  /** For a fixed forced provider, if any, a harder request never gets a lower tier. */
  ghost predicate DecisionsRise(ps: seq<Provider>, threshold: real, now: int)
  {
    forall forced, r, r' :: Harder(r, r') ==>
      Decide(ps, r, forced, threshold, now).tier.Rank() <= Decide(ps, r', forced, threshold, now).tier.Rank()
  }

  /** The same of the decision a caller gets, forced, body-less and explicitly requested ones included. */
  lemma DecisionsRiseExactly(ps: seq<Provider>, threshold: real, now: int)
    ensures DecisionsRise(ps, threshold, now) <==> UltraCovered(ps, now)
  {
    MonotoneExactly(ps, threshold, now);
    if DecisionsRise(ps, threshold, now) {
      forall s, s' | Raised(s, s')
        ensures Route(ps, s, threshold, now).tier.Rank() <= Route(ps, s', threshold, now).tier.Rank()
      {
        var r, r' := Request(true, false, s), Request(true, false, s');
        assert Harder(r, r');
        assert Decide(ps, r, None, threshold, now).tier.Rank() <= Decide(ps, r', None, threshold, now).tier.Rank();
      }
    }
  }

  // ----- the built-in registry -----

  function Entry(id: string, tier: Tier, price: real, window: nat, tools: bool): Provider
  {
    Provider(id, tier, price, window, tools, Healthy)
  }

  function Named(prefix: string, names: seq<string>, tier: Tier, window: nat, tools: bool): seq<Provider>
  {
    seq(|names|, i requires 0 <= i < |names| => Entry(prefix + names[i], tier, 0.0, window, tools))
  }

  /** `build_registry`; a key that is not empty configures its provider. */
  function BuildRegistry(deepseekKey: string, openrouterKey: string, glmKey: string,
                         litellm: seq<string>, local: seq<string>): seq<Provider>
  {
    [Entry("claude", Premium, 3.0, 200_000, true)]
    + (if deepseekKey != "" then [Entry("deepseek", Mid, 0.27, 64_000, true)] else [])
    + (if openrouterKey != "" then [Entry("openrouter", Mid, 0.27, 64_000, true)] else [])
    + (if glmKey != "" then [Entry("glm", Mid, 0.14, 128_000, true)] else [])
    + Named("litellm-", litellm, Mid, 128_000, true)
    + Named("local-", local, Free, 32_000, false)
  }

  /** With the built-in registry routing is monotone whatever is configured and whatever health its
      providers are in later, since none is above Premium. */
  lemma BuiltRegistryIsMonotone(deepseekKey: string, openrouterKey: string, glmKey: string,
                                litellm: seq<string>, local: seq<string>,
                                ps: seq<Provider>, threshold: real, now: int)
    requires var built := BuildRegistry(deepseekKey, openrouterKey, glmKey, litellm, local);
             |ps| == |built| && forall i :: 0 <= i < |ps| ==> ps[i] == built[i].(health := ps[i].health)
    ensures Monotone(ps, threshold, now) && DecisionsRise(ps, threshold, now)
  {
    BuiltRegistryHasNoUltra(deepseekKey, openrouterKey, glmKey, litellm, local);
    MonotoneExactly(ps, threshold, now);
    DecisionsRiseExactly(ps, threshold, now);
  }

  lemma BuiltRegistryHasNoUltra(deepseekKey: string, openrouterKey: string, glmKey: string,
                                litellm: seq<string>, local: seq<string>)
    ensures forall p :: p in BuildRegistry(deepseekKey, openrouterKey, glmKey, litellm, local) ==> p.tier != Ultra
  {
  }
}
