/** Neither request translator of src/transform.rs reorders, drops or invents tool calls and tool
    results, and every maximal run of OpenAI tool messages becomes exactly one user message. */
module RequestOrder {
  import opened Wrappers
  import opened Lists
  import opened Text
  import opened Requests
  import opened RequestRoundTrip

  // ----- the tool traffic of a request, flattened -----

  function UseIn(b: Block): seq<string>
  {
    if b.kind.ToolUseKind? then [b.id.UnwrapOr("")] else []
  }

  function BlocksOf(m: AMessage): seq<Block>
  {
    if m.content.Blocks? then m.content.bs else []
  }

  function UsesIn(m: AMessage): seq<string>
  {
    FlatMap(UseIn, BlocksOf(m))
  }

  function ResultsIn(m: AMessage): seq<(string, string)>
  {
    FlatMap(ResultPair, BlocksOf(m))
  }

  function Uses(ms: seq<AMessage>): seq<string>
  {
    FlatMap(UsesIn, ms)
  }

  function Results(ms: seq<AMessage>): seq<(string, string)>
  {
    FlatMap(ResultsIn, ms)
  }

  function CallIds(calls: seq<OCall>): seq<string>
  {
    seq(|calls|, i requires 0 <= i < |calls| => calls[i].id.UnwrapOr(""))
  }

  predicate IsTool(o: OMessage)
  {
    o.role == Some(Tool)
  }

  function PairOf(o: OMessage): (string, string)
  {
    (o.toolCallId.UnwrapOr(""), o.content.AsStr().UnwrapOr(""))
  }

  function OUsesIn(o: OMessage): seq<string>
  {
    CallIds(o.toolCalls.UnwrapOr([]))
  }

  function OResultsIn(o: OMessage): seq<(string, string)>
  {
    if IsTool(o) then [PairOf(o)] else []
  }

  function OUses(os: seq<OMessage>): seq<string>
  {
    FlatMap(OUsesIn, os)
  }

  function OResults(os: seq<OMessage>): seq<(string, string)>
  {
    FlatMap(OResultsIn, os)
  }

  // ----- Anthropic to OpenAI -----

  /** Tool uses only in assistant messages, tool results only elsewhere, and no "tool" role, which
      Anthropic requests do not have. */
  predicate Placed(m: AMessage)
  {
    var role := m.role.UnwrapOr(User);
    && role != Tool
    && (role != Assistant ==> UsesIn(m) == [])
    && (role == Assistant ==> ResultsIn(m) == [])
  }

  lemma {:induction false} CallsKeepIds(c: Codec, bs: seq<Block>)
    ensures CallIds(ToolCalls(c, bs)) == FlatMap(UseIn, bs)
  {
    if bs != [] {
      var k := |bs| - 1;
      CallsKeepIds(c, bs[..k]);
      var before := ToolCalls(c, bs[..k]);
      if bs[k].kind.ToolUseKind? {
        assert ToolCalls(c, bs) == before + [ToCall(c, bs[k])];
        assert CallIds(before + [ToCall(c, bs[k])]) == CallIds(before) + [bs[k].id.UnwrapOr("")];
      }
    }
  }

  /** What a list of OpenAI messages says about tools, all of it. */
  ghost predicate Traffic(os: seq<OMessage>, uses: seq<string>, results: seq<(string, string)>)
  {
    OUses(os) == uses && OResults(os) == results
  }

  lemma TrafficOne(o: OMessage)
    ensures Traffic([o], OUsesIn(o), OResultsIn(o))
  {
    FlatMapOne(OUsesIn, o);
    FlatMapOne(OResultsIn, o);
  }

  lemma TrafficAppend(a: seq<OMessage>, b: seq<OMessage>)
    ensures Traffic(a + b, OUses(a) + OUses(b), OResults(a) + OResults(b))
  {
    FlatMapAppend(OUsesIn, a, b);
    FlatMapAppend(OResultsIn, a, b);
  }

  lemma {:induction false} ToolMessagesTraffic(rs: seq<(string, string)>)
    ensures Traffic(ToolMessages(rs), [], rs)
  {
    if rs != [] {
      var k := |rs| - 1;
      ToolMessagesTraffic(rs[..k]);
      ToolMessageTraffic(rs[k].0, rs[k].1);
      TrafficAppend(ToolMessages(rs[..k]), [ToolMessage(rs[k].0, rs[k].1)]);
      NoMore<string>([]);
    }
  }

  lemma ToolMessageTraffic(id: string, text: string)
    ensures Traffic([ToolMessage(id, text)], [], [(id, text)])
  {
    TrafficOne(ToolMessage(id, text));
  }

  lemma ResultsTraffic(texts: seq<string>, results: seq<(string, string)>)
    ensures Traffic((if texts != [] then [Plain(User, Join(texts, "\n"))] else []) + ToolMessages(results), [], results)
  {
    var first := if texts != [] then [Plain(User, Join(texts, "\n"))] else [];
    TrafficOne(Plain(User, Join(texts, "\n")));
    TrafficAppend(first, ToolMessages(results));
    ToolMessagesTraffic(results);
  }

  lemma BlocksTraffic(c: Codec, role: Role, bs: seq<Block>)
    requires Placed(AMessage(Some(role), Blocks(bs)))
    ensures Traffic(ConvertBlocks(c, role, bs), FlatMap(UseIn, bs), ToolResults(bs))
  {
    var texts := TextParts(bs);
    if role == Assistant {
      TrafficOne(AssistantMessage(texts, ToolCalls(c, bs)));
      CallsKeepIds(c, bs);
    } else if ToolResults(bs) != [] {
      ResultsTraffic(texts, ToolResults(bs));
    } else {
      TrafficOne(Plain(role, Join(texts, "\n")));
    }
  }

  lemma MessageTraffic(c: Codec, m: AMessage)
    requires Placed(m)
    ensures Traffic(ConvertMessage(c, m), UsesIn(m), ResultsIn(m))
  {
    var role := m.role.UnwrapOr(User);
    match m.content
    case Blocks(bs) =>
      assert Placed(AMessage(Some(role), Blocks(bs)));
      BlocksTraffic(c, role, bs);
    case Text(s) => TrafficOne(Plain(role, s));
    case _ => TrafficOne(Plain(role, ""));
  }

  lemma {:induction false} MessagesTraffic(c: Codec, ms: seq<AMessage>)
    requires forall i :: 0 <= i < |ms| ==> Placed(ms[i])
    ensures Traffic(ConvertMessages(c, ms), Uses(ms), Results(ms))
  {
    if ms != [] {
      var k := |ms| - 1;
      MessagesTraffic(c, ms[..k]);
      MessageTraffic(c, ms[k]);
      TrafficAppend(ConvertMessages(c, ms[..k]), ConvertMessage(c, ms[k]));
    }
  }

  /** Translating to OpenAI form keeps the flattened order of tool calls and of tool results. */
  lemma ToOpenAIKeepsOrder(c: Codec, r: ARequest, model: string)
    requires forall i :: 0 <= i < |r.messages.UnwrapOr([])| ==> Placed(r.messages.UnwrapOr([])[i])
    ensures var os := ToOpenAI(c, r, model).messages.value;
            OUses(os) == Uses(r.messages.UnwrapOr([])) && OResults(os) == Results(r.messages.UnwrapOr([]))
  {
    var ms := r.messages.UnwrapOr([]);
    MessagesTraffic(c, ms);
    TrafficAppend(SystemMessages(r.system), ConvertMessages(c, ms));
    TrafficOne(Plain(System, PromptString(r.system)));
  }

  // ----- OpenAI to Anthropic -----

  /** Tool calls only in assistant messages, each with its function. */
  predicate OPlaced(o: OMessage)
  {
    var calls := o.toolCalls.UnwrapOr([]);
    && (o.role != Some(Assistant) ==> calls == [])
    && forall i :: 0 <= i < |calls| ==> calls[i].func.Some?
  }

  lemma UseTraffic(c: Codec, before: seq<Block>, call: OCall)
    requires call.func.Some?
    ensures FlatMap(UseIn, before + ToUse(c, call)) == FlatMap(UseIn, before) + [call.id.UnwrapOr("")]
    ensures FlatMap(ResultPair, before + ToUse(c, call)) == FlatMap(ResultPair, before)
  {
    var b := ToUse(c, call)[0];
    assert (before + [b])[..|before|] == before;
    assert FlatMap(ResultPair, before) + [] == FlatMap(ResultPair, before);
  }

  lemma {:induction false} ToUsesTraffic(c: Codec, calls: seq<OCall>)
    requires forall i :: 0 <= i < |calls| ==> calls[i].func.Some?
    ensures FlatMap(UseIn, ToUses(c, calls)) == CallIds(calls)
    ensures FlatMap(ResultPair, ToUses(c, calls)) == []
  {
    if calls != [] {
      var k := |calls| - 1;
      ToUsesTraffic(c, calls[..k]);
      UseTraffic(c, ToUses(c, calls[..k]), calls[k]);
      CallIdsStep(calls);
    }
  }

  lemma CallIdsStep(calls: seq<OCall>)
    requires calls != []
    ensures CallIds(calls) == CallIds(calls[..|calls| - 1]) + [calls[|calls| - 1].id.UnwrapOr("")]
  {
  }

  lemma AssistantTraffic(c: Codec, o: OMessage)
    requires OPlaced(o)
    ensures FlatMap(UseIn, AssistantBlocks(c, o)) == OUsesIn(o)
    ensures FlatMap(ResultPair, AssistantBlocks(c, o)) == []
  {
    var first := TextBlock(o.content.AsStr().UnwrapOr(""));
    var uses := ToUses(c, o.toolCalls.UnwrapOr([]));
    ToUsesTraffic(c, o.toolCalls.UnwrapOr([]));
    FlatMapOne(UseIn, first);
    FlatMapOne(ResultPair, first);
    FlatMapAppend(UseIn, [first], uses);
    FlatMapAppend(ResultPair, [first], uses);
    assert [] + uses == uses;
  }

  /** From `p` to `q` the finished messages gained these tool uses and results. */
  ghost predicate Carries(p: Progress, q: Progress, uses: seq<string>, results: seq<(string, string)>)
  {
    Uses(Finished(q)) == Uses(Finished(p)) + uses && Results(Finished(q)) == Results(Finished(p)) + results
  }

  /** Results that wait count as if they were flushed. */
  lemma PendTraffic(p: Progress, b: Block)
    requires b.kind.ToolResultKind?
    ensures Carries(p, p.(pending := p.pending + [b]), [], ResultPair(b))
  {
    FinishedTraffic(p);
    FinishedTraffic(p.(pending := p.pending + [b]));
    MoreTraffic(p.pending, b);
    NoMore(Uses(Finished(p)));
    Regroup(Results(p.messages), FlatMap(ResultPair, p.pending), ResultPair(b));
  }

  lemma MoreTraffic(pending: seq<Block>, b: Block)
    requires b.kind.ToolResultKind?
    ensures FlatMap(UseIn, pending + [b]) == FlatMap(UseIn, pending)
    ensures FlatMap(ResultPair, pending + [b]) == FlatMap(ResultPair, pending) + ResultPair(b)
  {
    assert (pending + [b])[..|pending|] == pending;
    NoMore(FlatMap(UseIn, pending));
  }

  lemma FinishedTraffic(p: Progress)
    ensures Uses(Finished(p)) == Uses(p.messages) + FlatMap(UseIn, p.pending)
    ensures Results(Finished(p)) == Results(p.messages) + FlatMap(ResultPair, p.pending)
  {
    FlatMapAppend(UsesIn, p.messages, Flush(p.pending));
    FlatMapAppend(ResultsIn, p.messages, Flush(p.pending));
    FlushTraffic(p.pending);
  }

  lemma FlushTraffic(pending: seq<Block>)
    ensures FlatMap(UsesIn, Flush(pending)) == FlatMap(UseIn, pending)
    ensures FlatMap(ResultsIn, Flush(pending)) == FlatMap(ResultPair, pending)
  {
    FlatMapOne(UsesIn, AMessage(Some(User), Blocks(pending)));
    FlatMapOne(ResultsIn, AMessage(Some(User), Blocks(pending)));
  }

  lemma PushTraffic(p: Progress, m: AMessage)
    ensures Carries(p, Progress(p.system, p.messages + Flush(p.pending) + [m], []), UsesIn(m), ResultsIn(m))
  {
    FlatMapAppend(UsesIn, Finished(p), [m]);
    FlatMapAppend(ResultsIn, Finished(p), [m]);
    FlatMapOne(UsesIn, m);
    FlatMapOne(ResultsIn, m);
    NoMore(Finished(p) + [m]);
  }

  lemma TextTraffic(text: string)
    ensures var m := AMessage(Some(User), Blocks([TextBlock(text)])); UsesIn(m) == [] && ResultsIn(m) == []
  {
    FlatMapOne(UseIn, TextBlock(text));
    FlatMapOne(ResultPair, TextBlock(text));
  }

  lemma StepTraffic(c: Codec, p: Progress, o: OMessage)
    requires OPlaced(o)
    ensures Carries(p, StepMessage(c, p, o), OUsesIn(o), OResultsIn(o))
  {
    var role := o.role.UnwrapOr(User);
    var text := o.content.AsStr().UnwrapOr("");
    if role == Assistant {
      AssistantTraffic(c, o);
      PushTraffic(p, AMessage(Some(Assistant), Blocks(AssistantBlocks(c, o))));
    } else {
      OtherTraffic(c, p, o, role, text);
    }
  }

  lemma OtherTraffic(c: Codec, p: Progress, o: OMessage, role: Role, text: string)
    requires OPlaced(o) && role == o.role.UnwrapOr(User) != Assistant && text == o.content.AsStr().UnwrapOr("")
    ensures Carries(p, StepMessage(c, p, o), OUsesIn(o), OResultsIn(o))
  {
    assert OUsesIn(o) == [];
    if role == Tool {
      PendTraffic(p, ToolResult(o.toolCallId.UnwrapOr(""), text));
    } else if role == System {
      NoMore(Uses(Finished(p)));
      NoMore(Results(Finished(p)));
    } else {
      TextTraffic(text);
      PushTraffic(p, AMessage(Some(User), Blocks([TextBlock(text)])));
    }
  }

  lemma {:induction false} StepsTraffic(c: Codec, os: seq<OMessage>)
    requires forall i :: 0 <= i < |os| ==> OPlaced(os[i])
    ensures Uses(Finished(StepMessages(c, START, os))) == OUses(os)
    ensures Results(Finished(StepMessages(c, START, os))) == OResults(os)
  {
    if os != [] {
      StepsTraffic(c, os[..|os| - 1]);
      StepTraffic(c, StepMessages(c, START, os[..|os| - 1]), os[|os| - 1]);
    }
  }

  /** Translating to Anthropic form keeps the flattened order of tool calls and of tool results. */
  lemma ToAnthropicKeepsOrder(c: Codec, o: ORequest)
    requires forall i :: 0 <= i < |o.messages.UnwrapOr([])| ==> OPlaced(o.messages.UnwrapOr([])[i])
    ensures var ms := ToAnthropic(c, o).messages.value;
            Uses(ms) == OUses(o.messages.UnwrapOr([])) && Results(ms) == OResults(o.messages.UnwrapOr([]))
  {
    StepsTraffic(c, o.messages.UnwrapOr([]));
  }

  // ----- runs of tool messages -----

  function UnlessSystem(o: OMessage): seq<OMessage>
  {
    if o.role == Some(System) then [] else [o]
  }

  function WithoutSystem(os: seq<OMessage>): seq<OMessage>
  {
    FlatMap(UnlessSystem, os)
  }

  /** How many tool messages come first. */
  function LeadingTools(os: seq<OMessage>): (n: nat)
    ensures n <= |os|
  {
    if os == [] || !IsTool(os[0]) then 0 else 1 + LeadingTools(os[1..])
  }

  /** The maximal runs of tool messages, each as the user message it should become. */
  function ToolRuns(os: seq<OMessage>): seq<AMessage>
    decreases |os|
  {
    if os == [] then []
    else
      FirstRun(os) + ToolRuns(AfterRun(os))
  }

  function FirstRun(os: seq<OMessage>): seq<AMessage>
  {
    var n := LeadingTools(os);
    if n == 0 then [] else [RunMessage(os[..n])]
  }

  /** What is left after the leading run, or after the first message if it is no tool message. */
  function AfterRun(os: seq<OMessage>): (rest: seq<OMessage>)
    requires os != []
    ensures |rest| < |os|
  {
    var n := LeadingTools(os);
    if n == 0 then os[1..] else os[n..]
  }

  function RunMessage(run: seq<OMessage>): AMessage
  {
    AMessage(Some(User), Blocks(RunBlocks(run)))
  }

  function RunBlocks(run: seq<OMessage>): seq<Block>
  {
    seq(|run|, i requires 0 <= i < |run| => ToolResult(PairOf(run[i]).0, PairOf(run[i]).1))
  }

  function IfResults(m: AMessage): seq<AMessage>
  {
    if IsResults(m) then [m] else []
  }

  /** The user messages of the result that hold tool results. */
  function ResultMessages(ms: seq<AMessage>): seq<AMessage>
  {
    FlatMap(IfResults, ms)
  }

  lemma {:induction false} LeadingCut(a: seq<OMessage>, b: seq<OMessage>)
    requires (b != [] && IsTool(b[0])) ==> LeadingTools(a) < |a|
    ensures LeadingTools(a + b) == LeadingTools(a)
  {
    if a == [] {
      assert a + b == b;
    } else {
      assert (a + b)[1..] == a[1..] + b;
      if IsTool(a[0]) { LeadingCut(a[1..], b); }
    }
  }

  lemma {:induction false} LeadingAll(run: seq<OMessage>)
    requires forall i :: 0 <= i < |run| ==> IsTool(run[i])
    ensures LeadingTools(run) == |run|
  {
    if run != [] { LeadingAll(run[1..]); }
  }

  lemma {:induction false} LeadingStops(a: seq<OMessage>)
    requires a != [] && !IsTool(a[|a| - 1])
    ensures LeadingTools(a) < |a|
  {
    if |a| > 1 { LeadingStops(a[1..]); }
  }

  lemma RunCut(a: seq<OMessage>, b: seq<OMessage>)
    requires a != [] && ((b != [] && IsTool(b[0])) ==> LeadingTools(a) < |a|)
    ensures FirstRun(a + b) == FirstRun(a) && AfterRun(a + b) == AfterRun(a) + b
  {
    LeadingCut(a, b);
    CutFirst(a, b, LeadingTools(a));
    CutFirst(a, b, 1);
  }

  lemma RunsOfOne(run: seq<OMessage>)
    requires forall i :: 0 <= i < |run| ==> IsTool(run[i])
    ensures ToolRuns(run) == if run == [] then [] else [RunMessage(run)]
  {
    LeadingAll(run);
    Whole(run);
    if run != [] {
      assert AfterRun(run) == [];
      NoMore(FirstRun(run));
    }
  }

  /** A trailing run is a run of its own. */
  lemma {:induction false} RunsSplit(base: seq<OMessage>, run: seq<OMessage>)
    requires base != [] ==> !IsTool(base[|base| - 1])
    requires forall i :: 0 <= i < |run| ==> IsTool(run[i])
    ensures ToolRuns(base + run) == ToolRuns(base) + if run == [] then [] else [RunMessage(run)]
    decreases |base|
  {
    if base == [] {
      assert base + run == run;
      RunsOfOne(run);
    } else {
      LeadingStops(base);
      RunCut(base, run);
      RunsSplit(AfterRun(base), run);
      Regroup(FirstRun(base), ToolRuns(AfterRun(base)), if run == [] then [] else [RunMessage(run)]);
    }
  }

  /** Any other message neither starts nor extends a run. */
  lemma {:induction false} RunsOther(os: seq<OMessage>, o: OMessage)
    requires !IsTool(o)
    ensures ToolRuns(os + [o]) == ToolRuns(os)
    decreases |os|
  {
    if os == [] {
      assert os + [o] == [o] && [o][1..] == [];
    } else {
      RunCut(os, [o]);
      RunsOther(AfterRun(os), o);
    }
  }

  /** The messages read so far, system messages dropped, are `base + run`; `run` is the open run. */
  ghost predicate Grouped(p: Progress, base: seq<OMessage>, run: seq<OMessage>)
  {
    && (base != [] ==> !IsTool(base[|base| - 1]))
    && (forall i :: 0 <= i < |run| ==> IsTool(run[i]))
    && p.pending == RunBlocks(run)
    && ResultMessages(p.messages) == ToolRuns(base)
  }

  lemma FlushOne(run: seq<OMessage>)
    ensures ResultMessages(Flush(RunBlocks(run))) == if run == [] then [] else [RunMessage(run)]
  {
    if run != [] {
      var m := RunMessage(run);
      assert IsResults(m);
      assert Flush(RunBlocks(run)) == [m];
      FlatMapOne(IfResults, m);
    }
  }

  lemma FinishedGrouped(p: Progress, base: seq<OMessage>, run: seq<OMessage>)
    requires Grouped(p, base, run)
    ensures ResultMessages(Finished(p)) == ToolRuns(base + run)
  {
    FlatMapAppend(IfResults, p.messages, Flush(p.pending));
    FlushOne(run);
    RunsSplit(base, run);
  }

  lemma PushGrouped(p: Progress, base: seq<OMessage>, run: seq<OMessage>, o: OMessage, m: AMessage)
    requires Grouped(p, base, run) && !IsTool(o) && !IsResults(m)
    ensures Grouped(Progress(p.system, p.messages + Flush(p.pending) + [m], []), base + run + [o], [])
  {
    FinishedGrouped(p, base, run);
    RunsOther(base + run, o);
    FlatMapAppend(IfResults, Finished(p), [m]);
    FlatMapOne(IfResults, m);
  }

  lemma TextNotResults(text: string)
    ensures !IsResults(AMessage(Some(User), Blocks([TextBlock(text)])))
  {
    assert !IsToolResult([TextBlock(text)][0]);
  }

  lemma PendGrouped(p: Progress, base: seq<OMessage>, run: seq<OMessage>, o: OMessage)
    requires Grouped(p, base, run) && IsTool(o)
    ensures Grouped(p.(pending := p.pending + [ToolResult(PairOf(o).0, PairOf(o).1)]), base, run + [o])
  {
    assert RunBlocks(run + [o]) == RunBlocks(run) + [ToolResult(PairOf(o).0, PairOf(o).1)];
  }

  /** One more message. */
  lemma StepGrouped(c: Codec, p: Progress, base: seq<OMessage>, run: seq<OMessage>, o: OMessage)
    returns (base': seq<OMessage>, run': seq<OMessage>)
    requires Grouped(p, base, run)
    ensures Grouped(StepMessage(c, p, o), base', run')
    ensures base' + run' == base + run + UnlessSystem(o)
  {
    var role := o.role.UnwrapOr(User);
    base', run' := base + run + [o], [];
    NoMore(base + run + [o]);
    NoMore(base + run);
    if role == Tool {
      base', run' := base, run + [o];
      PendGrouped(p, base, run, o);
      Regroup(base, run, [o]);
    } else if role == Assistant {
      PushGrouped(p, base, run, o, AMessage(Some(Assistant), Blocks(AssistantBlocks(c, o))));
    } else if role == System {
      base', run' := base, run;
    } else {
      TextNotResults(o.content.AsStr().UnwrapOr(""));
      PushGrouped(p, base, run, o, AMessage(Some(User), Blocks([TextBlock(o.content.AsStr().UnwrapOr(""))])));
    }
  }

  lemma {:induction false} StepsGrouped(c: Codec, os: seq<OMessage>)
    returns (base: seq<OMessage>, run: seq<OMessage>)
    ensures Grouped(StepMessages(c, START, os), base, run)
    ensures base + run == WithoutSystem(os)
  {
    if os == [] {
      base, run := [], [];
    } else {
      var k := |os| - 1;
      var base0, run0 := StepsGrouped(c, os[..k]);
      base, run := StepGrouped(c, StepMessages(c, START, os[..k]), base0, run0, os[k]);
    }
  }

  /** The result-carrying user messages of the translation are exactly the maximal runs of tool
      messages of the request, system messages ignored, in order. */
  lemma RunsBecomeMessages(c: Codec, o: ORequest)
    ensures ResultMessages(ToAnthropic(c, o).messages.value) == ToolRuns(WithoutSystem(o.messages.UnwrapOr([])))
  {
    var os := o.messages.UnwrapOr([]);
    var base, run := StepsGrouped(c, os);
    FinishedGrouped(StepMessages(c, START, os), base, run);
  }
}
