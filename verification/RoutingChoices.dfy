/** Which provider a request gets (src/router.rs:115-205, 360-408; src/provider.rs:265-303, 380-466), in the
    terms of the request's signals and the providers' own tiers, prices and windows. */
module RoutingChoices {
  import opened Wrappers
  import opened Routing

  // ----- what a request asks for -----

  predicate AsksPremium(s: Signals, threshold: real)
  {
    || s.taskType in {Planning, Architecture, Refactoring, Security, Migration}
    || s.recentErrorCount >= 3
    || (s.blastRadiusScore.Some? && s.blastRadiusScore.value > threshold + 0.2)
    || s.estimatedTokens > 100_000
  }

  predicate AsksMid(s: Signals, threshold: real)
  {
    || s.taskType in {Debugging, CodeGeneration, Default, Testing}
    || (s.blastRadiusScore.Some? && s.blastRadiusScore.value > threshold)
    || s.estimatedTokens > 50_000
  }

  predicate AsksBudget(s: Signals)
  {
    s.taskType in {SimpleEdit, Documentation}
  }

  /** The provider is good enough, big enough, has the tools if they are needed, and is in use. */
  predicate CanServe(p: Provider, s: Signals, threshold: real, now: int)
  {
    && (AsksPremium(s, threshold) ==> p.tier in {Premium, Ultra})
    && (AsksMid(s, threshold) ==> p.tier in {Mid, Premium, Ultra})
    && (AsksBudget(s) ==> p.tier != Free)
    && s.estimatedTokens <= p.contextWindow
    && (s.requiresToolSupport ==> p.supportsTools)
    && IsHealthy(p.health, now)
  }

  /** The minimum tier is the highest that any signal asks for. */
  lemma MinTierExactly(s: Signals, threshold: real)
    ensures MinTier(s, threshold) ==
            if AsksPremium(s, threshold) then Premium
            else if AsksMid(s, threshold) then Mid
            else if AsksBudget(s) then Budget
            else Free
  {
  }

  lemma EligibleExactly(p: Provider, s: Signals, threshold: real, now: int)
    ensures Eligible(p, MinTier(s, threshold), s.estimatedTokens, s.requiresToolSupport, now) <==>
            CanServe(p, s, threshold, now)
  {
    MinTierExactly(s, threshold);
  }

  // ----- the cheapest that can serve -----

  /** Provider i can serve the request, and every other that can is of a higher tier, or as high and dearer,
      or as dear and registered later. */
  ghost predicate Cheapest(ps: seq<Provider>, i: nat, s: Signals, threshold: real, now: int)
  {
    && i < |ps| && CanServe(ps[i], s, threshold, now)
    && forall j :: 0 <= j < |ps| && CanServe(ps[j], s, threshold, now) ==> NoBetter(ps, i, j)
  }

  ghost predicate NobodyServes(ps: seq<Provider>, s: Signals, threshold: real, now: int)
  {
    forall i :: 0 <= i < |ps| ==> !CanServe(ps[i], s, threshold, now)
  }

  /** Over every registry in any health and all signals: the routed provider is the cheapest that can serve,
      and only when none can is it Claude, whatever it costs. */
  lemma RoutesToCheapest(ps: seq<Provider>, s: Signals, threshold: real, now: int)
    ensures var d := Route(ps, s, threshold, now);
            if NobodyServes(ps, s, threshold, now)
            then d.provider == "claude" && d.tier == Premium && d.tokens == s.estimatedTokens
                 && Registered(ps, "claude", d.config)
            else exists i: nat :: Cheapest(ps, i, s, threshold, now)
                          && d == Decision(ps[i].id, ps[i].tier, s.estimatedTokens, Some(ps[i]))
  {
    var m := MinTier(s, threshold);
    forall i | 0 <= i < |ps|
      ensures Eligible(ps[i], m, s.estimatedTokens, s.requiresToolSupport, now) <==> CanServe(ps[i], s, threshold, now)
    {
      EligibleExactly(ps[i], s, threshold, now);
    }
    RouteChooses(ps, s, threshold, now);
    LookupFinds(ps, "claude");
    if !NobodyServes(ps, s, threshold, now) {
      var i: nat :| EarliestCheapest(ps, i, m, s.estimatedTokens, s.requiresToolSupport, now)
                 && Route(ps, s, threshold, now) == Decision(ps[i].id, ps[i].tier, s.estimatedTokens, Some(ps[i]));
      assert Cheapest(ps, i, s, threshold, now);
    }
  }

  /** Two that can both serve: at the same tier the cheaper one is never passed over. */
  lemma PriceDecides(ps: seq<Provider>, s: Signals, threshold: real, now: int, j: nat)
    requires j < |ps| && CanServe(ps[j], s, threshold, now)
    ensures var d := Route(ps, s, threshold, now);
            && d.config.Some? && d.tier == d.config.value.tier && CanServe(d.config.value, s, threshold, now)
            && d.tier.Rank() <= ps[j].tier.Rank()
            && (d.tier == ps[j].tier ==> d.config.value.inputPrice <= ps[j].inputPrice)
  {
    RoutesToCheapest(ps, s, threshold, now);
  }

  // ----- forced, body-less and explicitly requested decisions -----

  /** What is registered under this id first, if anything is. */
  ghost predicate Registered(ps: seq<Provider>, id: string, found: Option<Provider>)
  {
    match found
    case None => forall i :: 0 <= i < |ps| ==> ps[i].id != id
    case Some(p) => exists i :: 0 <= i < |ps| && ps[i] == p && p.id == id && forall j :: 0 <= j < i ==> ps[j].id != id
  }

  lemma {:induction false} LookupFinds(ps: seq<Provider>, id: string)
    ensures Registered(ps, id, Lookup(ps, id))
  {
    if ps != [] && ps[0].id != id {
      LookupFinds(ps[1..], id);
      var found := Lookup(ps[1..], id);
      if found.None? {
        assert forall i :: 0 < i < |ps| ==> ps[i] == ps[1..][i - 1];
      } else {
        var i :| 0 <= i < |ps[1..]| && ps[1..][i] == found.value && forall j :: 0 <= j < i ==> ps[1..][j].id != id;
        assert ps[i + 1] == found.value;
        assert forall j :: 0 < j < i + 1 ==> ps[j] == ps[1..][j - 1];
      }
    }
  }

  /** A forced provider that is registered is taken as it is; another forced name means DeepSeek or Claude.
      Without a body the answer is Claude; a model that is asked for is DeepSeek; everything else is routed. */
  lemma DecidesExactly(ps: seq<Provider>, r: Request, forced: Option<string>, threshold: real, now: int)
    ensures var d := Decide(ps, r, forced, threshold, now);
            && (r.hasBody ==> d.tokens == r.signals.estimatedTokens)
            && (!r.hasBody ==> d.tokens == 0)
            && (forced.Some? ==>
                  && Registered(ps, forced.value, d.config)
                  && (d.config.Some? ==> d.provider == forced.value && d.tier == d.config.value.tier)
                  && (d.config.None? && forced.value == "deepseek" ==> d.provider == "deepseek" && d.tier == Mid)
                  && (d.config.None? && forced.value != "deepseek" ==> d.provider == "claude" && d.tier == Premium))
            && (forced.None? && !r.hasBody ==>
                  d.provider == "claude" && d.tier == Premium && Registered(ps, "claude", d.config))
            && (forced.None? && r.hasBody && r.asksForDeepseek ==>
                  d.provider == "deepseek" && d.tier == Mid && Registered(ps, "deepseek", d.config))
            && (forced.None? && r.hasBody && !r.asksForDeepseek ==> d == Route(ps, r.signals, threshold, now))
  {
    LookupFinds(ps, "claude");
    LookupFinds(ps, "deepseek");
    if forced.Some? { LookupFinds(ps, forced.value); }
    RouteChooses(ps, r.signals, threshold, now);
  }

  // ----- the built-in registry -----

  /** What is configured besides Claude. */
  datatype Setup = Setup(deepseek: string, openrouter: string, glm: string, litellm: seq<string>, local: seq<string>) {
    function Build(): seq<Provider>
    {
      BuildRegistry(deepseek, openrouter, glm, litellm, local)
    }

    function Hosted(): seq<Provider>
    {
      [Entry("claude", Premium, 3.0, 200_000, true)]
      + (if deepseek != "" then [Entry("deepseek", Mid, 0.27, 64_000, true)] else [])
      + (if openrouter != "" then [Entry("openrouter", Mid, 0.27, 64_000, true)] else [])
      + (if glm != "" then [Entry("glm", Mid, 0.14, 128_000, true)] else [])
    }

    /** What a request gets when everything configured is in use: a local server if it asks for nothing and
        is small, then LiteLLM, whose price is taken as zero, then GLM, DeepSeek, OpenRouter, and Claude for
        all else. */
    function Expected(s: Signals, threshold: real): string
    {
      if AsksPremium(s, threshold) then "claude"
      else if !AsksMid(s, threshold) && !AsksBudget(s) && !s.requiresToolSupport && s.estimatedTokens <= 32_000
              && local != [] then "local-" + local[0]
      else if litellm != [] then "litellm-" + litellm[0]
      else if glm != "" then "glm"
      else if deepseek != "" && s.estimatedTokens <= 64_000 then "deepseek"
      else if openrouter != "" && s.estimatedTokens <= 64_000 then "openrouter"
      else "claude"
    }
  }

  lemma BuiltIs(u: Setup)
    ensures u.Build() == u.Hosted() + Named("litellm-", u.litellm, Mid, 128_000, true)
                         + Named("local-", u.local, Free, 32_000, false)
  {
  }

  /** Every provider built is one of six kinds. */
  lemma BuiltAt(u: Setup, k: nat)
    requires k < |u.Build()|
    ensures var (p, h, l) := (u.Build()[k], |u.Hosted()|, |u.litellm|);
            if k < h then p == u.Hosted()[k]
            else if k < h + l then p == Entry("litellm-" + u.litellm[k - h], Mid, 0.0, 128_000, true)
            else k - h - l < |u.local| && p == Entry("local-" + u.local[k - h - l], Free, 0.0, 32_000, false)
  {
    BuiltIs(u);
  }

  lemma CheapestIsOne(ps: seq<Provider>, i: nat, j: nat, s: Signals, threshold: real, now: int)
    requires Cheapest(ps, i, s, threshold, now) && Cheapest(ps, j, s, threshold, now)
    ensures i == j
  {
    assert NoBetter(ps, i, j) && NoBetter(ps, j, i);
  }

  lemma LocalIsCheapest(u: Setup, s: Signals, threshold: real, now: int)
    requires !AsksPremium(s, threshold) && !AsksMid(s, threshold) && !AsksBudget(s)
    requires !s.requiresToolSupport && s.estimatedTokens <= 32_000 && u.local != []
    ensures Cheapest(u.Build(), |u.Hosted()| + |u.litellm|, s, threshold, now)
  {
    var (ps, i) := (u.Build(), |u.Hosted()| + |u.litellm|);
    BuiltIs(u);
    BuiltAt(u, i);
    forall j | 0 <= j < |ps| && CanServe(ps[j], s, threshold, now) ensures NoBetter(ps, i, j) {
      BuiltAt(u, j);
    }
  }

  /** When no local server can serve and something of the middle tier can. */
  ghost predicate MiddleServes(s: Signals, threshold: real, local: seq<string>)
  {
    && !AsksPremium(s, threshold)
    && (AsksMid(s, threshold) || AsksBudget(s) || s.requiresToolSupport || s.estimatedTokens > 32_000 || local == [])
  }

  lemma LitellmIsCheapest(u: Setup, s: Signals, threshold: real, now: int)
    requires MiddleServes(s, threshold, u.local) && u.litellm != []
    ensures Cheapest(u.Build(), |u.Hosted()|, s, threshold, now)
  {
    var (ps, i) := (u.Build(), |u.Hosted()|);
    BuiltIs(u);
    BuiltAt(u, i);
    forall j | 0 <= j < |ps| && CanServe(ps[j], s, threshold, now) ensures NoBetter(ps, i, j) {
      BuiltAt(u, j);
    }
  }

  /** Without LiteLLM the hosted providers decide. */
  lemma HostedIsCheapest(u: Setup, i: nat, s: Signals, threshold: real, now: int)
    requires AsksPremium(s, threshold) || (MiddleServes(s, threshold, u.local) && u.litellm == [])
    requires i < |u.Hosted()| && CanServe(u.Hosted()[i], s, threshold, now)
    requires forall j :: 0 <= j < |u.Hosted()| && CanServe(u.Hosted()[j], s, threshold, now) ==> NoBetter(u.Hosted(), i, j)
    ensures Cheapest(u.Build(), i, s, threshold, now)
  {
    var ps := u.Build();
    BuiltIs(u);
    BuiltAt(u, i);
    forall j | 0 <= j < |ps| && CanServe(ps[j], s, threshold, now) ensures NoBetter(ps, i, j) {
      BuiltAt(u, j);
      if j < |u.Hosted()| { assert NoBetter(u.Hosted(), i, j); }
    }
  }

  /** Where each hosted provider stands. */
  function At(u: Setup, id: string): nat
  {
    if id == "deepseek" then 1
    else if id == "openrouter" then 1 + One(u.deepseek)
    else if id == "glm" then 1 + One(u.deepseek) + One(u.openrouter)
    else 0
  }

  function One(key: string): nat
  {
    if key == "" then 0 else 1
  }

  lemma HostedChooses(u: Setup, s: Signals, threshold: real, now: int)
    requires AsksPremium(s, threshold) || (MiddleServes(s, threshold, u.local) && u.litellm == [])
    requires s.estimatedTokens <= 200_000
    ensures var id := u.Expected(s, threshold);
            && At(u, id) < |u.Hosted()| && u.Hosted()[At(u, id)].id == id
            && Cheapest(u.Build(), At(u, id), s, threshold, now)
  {
    var (id, hosted) := (u.Expected(s, threshold), u.Hosted());
    var i := At(u, id);
    assert hosted[i].id == id && CanServe(hosted[i], s, threshold, now);
    forall j | 0 <= j < |hosted| && CanServe(hosted[j], s, threshold, now) ensures NoBetter(hosted, i, j) {
    }
    HostedIsCheapest(u, i, s, threshold, now);
  }

  /** With everything configured in use, every request gets the provider expected. */
  lemma BuiltRegistryChooses(u: Setup, s: Signals, threshold: real, now: int)
    ensures Route(u.Build(), s, threshold, now).provider == u.Expected(s, threshold)
  {
    var (ps, d) := (u.Build(), Route(u.Build(), s, threshold, now));
    RoutesToCheapest(ps, s, threshold, now);
    if s.estimatedTokens > 200_000 {
      forall k | 0 <= k < |ps| ensures !CanServe(ps[k], s, threshold, now) {
        BuiltAt(u, k);
      }
    } else {
      var j := BuiltCheapest(u, s, threshold, now);
      var i: nat :| Cheapest(ps, i, s, threshold, now) && d.provider == ps[i].id;
      CheapestIsOne(ps, i, j, s, threshold, now);
    }
  }

  lemma BuiltCheapest(u: Setup, s: Signals, threshold: real, now: int) returns (j: nat)
    requires s.estimatedTokens <= 200_000
    ensures Cheapest(u.Build(), j, s, threshold, now) && u.Build()[j].id == u.Expected(s, threshold)
  {
    var h := |u.Hosted()|;
    BuiltIs(u);
    if AsksPremium(s, threshold) || (MiddleServes(s, threshold, u.local) && u.litellm == []) {
      HostedChooses(u, s, threshold, now);
      j := At(u, u.Expected(s, threshold));
    } else if MiddleServes(s, threshold, u.local) {
      LitellmIsCheapest(u, s, threshold, now);
      j := h;
    } else {
      LocalIsCheapest(u, s, threshold, now);
      j := h + |u.litellm|;
    }
    BuiltAt(u, j);
  }
}
