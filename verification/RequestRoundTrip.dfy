/** Translating an Anthropic request to OpenAI form and back (src/transform.rs:10-174, 403-533)
    returns the same request, apart from the model name and the stream flag, exactly when the
    request is in normal form. */
module RequestRoundTrip {
  import opened Wrappers
  import opened Lists
  import opened Requests

  // ----- normal form -----

  predicate AreToolUses(bs: seq<Block>)
  {
    forall i :: 0 <= i < |bs| ==> IsToolUse(bs[i])
  }

  predicate IsToolUse(b: Block)
  {
    b.id.Some? && b.name.Some? && b.input.Some? && b == ToolUse(b.id.value, b.name.value, b.input.value)
  }

  predicate IsText(b: Block)
  {
    b.text.Some? && b == TextBlock(b.text.value)
  }

  predicate IsToolResult(b: Block)
  {
    b.toolUseId.Some? && b.content.ResultText? && b == ToolResult(b.toolUseId.value, b.content.s)
  }

  /** At most one text, which is not empty, then tool uses; or a single empty text. */
  predicate NormalAssistant(bs: seq<Block>)
  {
    || bs == [TextBlock("")]
    || (bs != [] && AreToolUses(bs))
    || (bs != [] && IsText(bs[0]) && bs[0].text.value != "" && AreToolUses(bs[1..]))
  }

  /** A user message made of string tool results only. */
  predicate IsResults(m: AMessage)
  {
    && m.role == Some(User) && m.other == map[] && m.content.Blocks? && m.content.bs != []
    && forall i :: 0 <= i < |m.content.bs| ==> IsToolResult(m.content.bs[i])
  }

  predicate IsUserText(m: AMessage)
  {
    m.role == Some(User) && m.other == map[] && m.content.Blocks? && |m.content.bs| == 1 && IsText(m.content.bs[0])
  }

  predicate IsAssistant(m: AMessage)
  {
    m.role == Some(Assistant) && m.other == map[] && m.content.Blocks? && NormalAssistant(m.content.bs)
  }

  predicate NormalMessage(m: AMessage)
  {
    IsResults(m) || IsUserText(m) || IsAssistant(m)
  }

  predicate NormalMessages(ms: seq<AMessage>)
  {
    && (forall i :: 0 <= i < |ms| ==> NormalMessage(ms[i]))
    && (forall i :: 0 < i < |ms| ==> !(IsResults(ms[i - 1]) && IsResults(ms[i])))
  }

  predicate NormalTool(t: ATool)
  {
    t.name.Some? && |t.name.value| <= 64 && t.description.Some? && t.inputSchema.Some? && t.other == map[]
  }

  /** Nothing the translators do not look up, and nothing they would rewrite. */
  predicate NormalForm(r: ARequest)
  {
    && r.other == map[]
    && (r.system == NoPrompt || (r.system.PromptText? && r.system.s != ""))
    && r.messages.Some? && NormalMessages(r.messages.value)
    && (r.tools.Some? ==> r.tools.value != [] && forall i :: 0 <= i < |r.tools.value| ==> NormalTool(r.tools.value[i]))
  }

  // ----- runs of the second translator -----

  lemma {:induction false} StepAppend(c: Codec, p: Progress, a: seq<OMessage>, b: seq<OMessage>)
    ensures StepMessages(c, p, a + b) == StepMessages(c, StepMessages(c, p, a), b)
  {
    if b == [] {
      assert a + b == a;
    } else {
      var k := |b| - 1;
      assert (a + b)[..|a + b| - 1] == a + b[..k];
      StepAppend(c, p, a, b[..k]);
    }
  }

  lemma StepOne(c: Codec, p: Progress, m: OMessage)
    ensures StepMessages(c, p, [m]) == StepMessage(c, p, m)
  {
    assert [m][..0] == [];
  }

  // ----- a normal message comes back -----

  lemma {:induction false} ResultsOnly(c: Codec, bs: seq<Block>)
    requires forall i :: 0 <= i < |bs| ==> IsToolResult(bs[i])
    ensures TextParts(bs) == [] && ToolCalls(c, bs) == [] && |ToolResults(bs)| == |bs|
  {
    if bs != [] { ResultsOnly(c, bs[..|bs| - 1]); }
  }

  lemma {:induction false} ResultsPend(c: Codec, p: Progress, bs: seq<Block>)
    requires forall i :: 0 <= i < |bs| ==> IsToolResult(bs[i])
    ensures StepMessages(c, p, ToolMessages(ToolResults(bs))) == p.(pending := p.pending + bs)
  {
    if bs != [] {
      var k := |bs| - 1;
      ResultsPend(c, p, bs[..k]);
      assert IsToolResult(bs[k]);
      var rs := ToolResults(bs);
      assert rs == ToolResults(bs[..k]) + [(bs[k].toolUseId.value, bs[k].content.s)];
      assert rs[..|rs| - 1] == ToolResults(bs[..k]);
      var os := ToolMessages(rs);
      assert os[..|os| - 1] == ToolMessages(ToolResults(bs[..k]));
      assert p.pending + bs[..k] + [bs[k]] == p.pending + bs;
    } else {
      assert p.pending + bs == p.pending;
    }
  }

  lemma ResultsConvert(c: Codec, m: AMessage)
    requires IsResults(m)
    ensures ConvertMessage(c, m) == ToolMessages(ToolResults(m.content.bs))
  {
    ResultsOnly(c, m.content.bs);
    assert [] + ToolMessages(ToolResults(m.content.bs)) == ToolMessages(ToolResults(m.content.bs));
  }

  lemma ResultsReturn(c: Codec, p: Progress, m: AMessage)
    requires IsResults(m)
    ensures StepMessages(c, p, ConvertMessage(c, m)) == p.(pending := p.pending + m.content.bs)
  {
    ResultsConvert(c, m);
    ResultsPend(c, p, m.content.bs);
  }

  lemma UserTextReturns(c: Codec, p: Progress, m: AMessage)
    requires IsUserText(m)
    ensures StepMessages(c, p, ConvertMessage(c, m)) == Progress(p.system, p.messages + Flush(p.pending) + [m], [])
  {
    var b := m.content.bs[0];
    assert m.content.bs == [b] && [b][..0] == [];
    FlatMapOne(TextPart, b);
    FlatMapOne(ResultPair, b);
    assert ConvertMessage(c, m) == [Plain(User, b.text.value)];
    StepOne(c, p, Plain(User, b.text.value));
  }

  lemma {:induction false} UsesReturn(c: Codec, bs: seq<Block>)
    requires Lawful(c) && AreToolUses(bs)
    ensures TextParts(bs) == [] && |ToolCalls(c, bs)| == |bs| && ToUses(c, ToolCalls(c, bs)) == bs
  {
    if bs != [] {
      var k := |bs| - 1;
      UsesReturn(c, bs[..k]);
      assert IsToolUse(bs[k]);
      var calls := ToolCalls(c, bs);
      assert calls == ToolCalls(c, bs[..k]) + [ToCall(c, bs[k])];
      assert calls[..|calls| - 1] == ToolCalls(c, bs[..k]);
      assert ToUse(c, ToCall(c, bs[k])) == [bs[k]];
    }
  }

  lemma {:induction false} CallsAfterText(c: Codec, b: Block, bs: seq<Block>)
    requires IsText(b)
    ensures ToolCalls(c, [b] + bs) == ToolCalls(c, bs)
  {
    if bs == [] {
      assert [b] + bs == [b] && [b][..0] == [];
    } else {
      var k := |bs| - 1;
      assert ([b] + bs)[..|bs|] == [b] + bs[..k];
      CallsAfterText(c, b, bs[..k]);
    }
  }

  lemma AssistantReturns(c: Codec, p: Progress, m: AMessage)
    requires Lawful(c) && IsAssistant(m)
    ensures StepMessages(c, p, ConvertMessage(c, m)) == Progress(p.system, p.messages + Flush(p.pending) + [m], [])
  {
    var bs := m.content.bs;
    var o := AssistantMessage(TextParts(bs), ToolCalls(c, bs));
    assert ConvertMessage(c, m) == [o];
    StepOne(c, p, o);
    AssistantBlocksReturn(c, bs);
  }

  lemma AssistantBlocksReturn(c: Codec, bs: seq<Block>)
    requires Lawful(c) && NormalAssistant(bs)
    ensures AssistantBlocks(c, AssistantMessage(TextParts(bs), ToolCalls(c, bs))) == bs
  {
    if bs != [] && AreToolUses(bs) {
      UsesReturn(c, bs);
    } else {
      TextAndUsesReturn(c, bs);
    }
  }

  lemma TextAndUsesReturn(c: Codec, bs: seq<Block>)
    requires Lawful(c) && bs != [] && IsText(bs[0]) && AreToolUses(bs[1..])
    ensures TextParts(bs) == [bs[0].text.value]
    ensures ToUses(c, ToolCalls(c, bs)) == bs[1..] && (ToolCalls(c, bs) == [] <==> |bs| == 1)
  {
    var uses := bs[1..];
    assert bs == [bs[0]] + uses;
    UsesReturn(c, uses);
    CallsAfterText(c, bs[0], uses);
    FlatMapAppend(TextPart, [bs[0]], uses);
    FlatMapOne(TextPart, bs[0]);
  }

  /** The second translator has rebuilt `ms`; only tool results it ends with still wait. */
  ghost predicate Rebuilt(q: Progress, system: Option<string>, ms: seq<AMessage>)
  {
    && q.system == system
    && Finished(q) == ms
    && (q.pending != [] <==> ms != [] && IsResults(ms[|ms| - 1]))
  }

  lemma MessageReturns(c: Codec, q: Progress, system: Option<string>, ms: seq<AMessage>, m: AMessage)
    requires Lawful(c) && Rebuilt(q, system, ms) && NormalMessage(m) && (IsResults(m) ==> q.pending == [])
    ensures Rebuilt(StepMessages(c, q, ConvertMessage(c, m)), system, ms + [m])
  {
    if IsResults(m) {
      ResultsReturn(c, q, m);
      PendRebuilds(q, system, ms, m);
    } else {
      if IsUserText(m) { UserTextReturns(c, q, m); } else { AssistantReturns(c, q, m); }
      PushRebuilds(q, system, ms, m);
    }
  }

  lemma PendRebuilds(q: Progress, system: Option<string>, ms: seq<AMessage>, m: AMessage)
    requires Rebuilt(q, system, ms) && IsResults(m) && q.pending == []
    ensures Rebuilt(q.(pending := q.pending + m.content.bs), system, ms + [m])
  {
    assert [] + m.content.bs == m.content.bs;
    assert m == AMessage(Some(User), Blocks(m.content.bs));
    NoMore(q.messages);
  }

  lemma PushRebuilds(q: Progress, system: Option<string>, ms: seq<AMessage>, m: AMessage)
    requires Rebuilt(q, system, ms) && !IsResults(m)
    ensures Rebuilt(Progress(q.system, q.messages + Flush(q.pending) + [m], []), system, ms + [m])
  {
    NoMore(ms + [m]);
  }

  lemma ConvertLast(c: Codec, p: Progress, ms: seq<AMessage>)
    requires ms != []
    ensures var q := StepMessages(c, p, ConvertMessages(c, ms[..|ms| - 1]));
            StepMessages(c, p, ConvertMessages(c, ms)) == StepMessages(c, q, ConvertMessage(c, ms[|ms| - 1]))
  {
    StepAppend(c, p, ConvertMessages(c, ms[..|ms| - 1]), ConvertMessage(c, ms[|ms| - 1]));
  }

  lemma ResultsNotAdjacent(ms: seq<AMessage>, k: nat)
    requires NormalMessages(ms) && 0 < k < |ms|
    ensures !(IsResults(ms[..k][k - 1]) && IsResults(ms[k]))
  {
  }

  lemma {:induction false} MessagesReturn(c: Codec, p: Progress, ms: seq<AMessage>)
    requires Lawful(c) && NormalMessages(ms) && p.messages == [] && p.pending == []
    ensures Rebuilt(StepMessages(c, p, ConvertMessages(c, ms)), p.system, ms)
  {
    if ms != [] {
      var k := |ms| - 1;
      var (front, m) := (ms[..k], ms[k]);
      assert ms == front + [m] && NormalMessage(m);
      MessagesReturn(c, p, front);
      ConvertLast(c, p, ms);
      if k > 0 { ResultsNotAdjacent(ms, k); }
      MessageReturns(c, StepMessages(c, p, ConvertMessages(c, front)), p.system, front, m);
    }
  }

  lemma {:induction false} ToolsReturn(ts: seq<ATool>)
    requires forall i :: 0 <= i < |ts| ==> NormalTool(ts[i])
    ensures ToATools(ToOTools(ts)) == ts
  {
    if ts != [] {
      var k := |ts| - 1;
      ToolsReturn(ts[..k]);
      assert ToOTools(ts)[..k] == ToOTools(ts[..k]);
      assert NormalTool(ts[k]);
    }
  }

  // ----- whatever comes back is normal -----

  ghost predicate NormalProgress(p: Progress)
  {
    && NormalMessages(p.messages)
    && (p.messages != [] ==> !IsResults(p.messages[|p.messages| - 1]))
    && forall i :: 0 <= i < |p.pending| ==> IsToolResult(p.pending[i])
  }

  lemma FinishedNormal(p: Progress)
    requires NormalProgress(p)
    ensures NormalMessages(Finished(p))
  {
    if p.pending != [] {
      assert IsResults(AMessage(Some(User), Blocks(p.pending)));
    }
  }

  lemma {:induction false} ToUsesAreUses(c: Codec, calls: seq<OCall>)
    ensures AreToolUses(ToUses(c, calls))
  {
    if calls != [] { ToUsesAreUses(c, calls[..|calls| - 1]); }
  }

  lemma AssistantBlocksNormal(c: Codec, m: OMessage)
    ensures NormalAssistant(AssistantBlocks(c, m))
  {
    var text := m.content.AsStr().UnwrapOr("");
    var uses := ToUses(c, m.toolCalls.UnwrapOr([]));
    ToUsesAreUses(c, m.toolCalls.UnwrapOr([]));
    assert ([TextBlock(text)] + uses)[1..] == uses;
    assert [] + uses == uses;
  }

  lemma PushNormal(p: Progress, m: AMessage)
    requires NormalProgress(p) && NormalMessage(m) && !IsResults(m)
    ensures NormalProgress(Progress(p.system, p.messages + Flush(p.pending) + [m], []))
  {
    FinishedNormal(p);
  }

  lemma StepNormal(c: Codec, p: Progress, m: OMessage)
    requires NormalProgress(p)
    ensures NormalProgress(StepMessage(c, p, m))
  {
    var role := m.role.UnwrapOr(User);
    if role == Assistant {
      AssistantBlocksNormal(c, m);
      PushNormal(p, AMessage(Some(Assistant), Blocks(AssistantBlocks(c, m))));
    } else if role != System && role != Tool {
      var b := TextBlock(m.content.AsStr().UnwrapOr(""));
      assert !IsToolResult([b][0]);
      PushNormal(p, AMessage(Some(User), Blocks([b])));
    }
  }

  lemma {:induction false} StepsNormal(c: Codec, p: Progress, ms: seq<OMessage>)
    requires NormalProgress(p)
    ensures NormalProgress(StepMessages(c, p, ms))
  {
    if ms != [] {
      StepsNormal(c, p, ms[..|ms| - 1]);
      StepNormal(c, StepMessages(c, p, ms[..|ms| - 1]), ms[|ms| - 1]);
    }
  }

  lemma {:induction false} ToolDefinitions(ts: seq<ATool>)
    ensures |ToATools(ToOTools(ts))| == |ts|
    ensures forall i :: 0 <= i < |ts| ==> NormalTool(ToATools(ToOTools(ts))[i])
  {
    if ts != [] {
      var k := |ts| - 1;
      ToolDefinitions(ts[..k]);
      assert ToOTools(ts)[..k] == ToOTools(ts[..k]);
    }
  }

  /** What the second translator makes of any messages is normal. */
  lemma TranslatedNormal(c: Codec, os: seq<OMessage>)
    ensures NormalMessages(Finished(StepMessages(c, START, os)))
  {
    StepsNormal(c, START, os);
    FinishedNormal(StepMessages(c, START, os));
  }

  /** The system text and the messages that come back. */
  lemma SystemReturns(c: Codec, prompt: Prompt, ms: seq<AMessage>)
    requires Lawful(c) && NormalMessages(ms)
    ensures var q := StepMessages(c, START, SystemMessages(prompt) + ConvertMessages(c, ms));
            && q.system == (if PromptString(prompt) == "" then None else Some(PromptString(prompt)))
            && Finished(q) == ms
  {
    var sys := SystemMessages(prompt);
    StepAppend(c, START, sys, ConvertMessages(c, ms));
    if sys != [] { StepOne(c, START, sys[0]); }
    MessagesReturn(c, StepMessages(c, START, sys), ms);
  }

  lemma ToolsNormal(ts: seq<ATool>)
    requires ToATools(ToOTools(ts)) == ts
    ensures forall i :: 0 <= i < |ts| ==> NormalTool(ts[i])
  {
    ToolDefinitions(ts);
  }

  lemma ReturnIsNormal(c: Codec, r: ARequest, model: string)
    requires Lawful(c)
    requires ToAnthropic(c, ToOpenAI(c, r, model)) == r.(model := Some(model), stream := Some(true))
    ensures NormalForm(r)
  {
    var ms := r.messages.UnwrapOr([]);
    TranslatedNormal(c, SystemMessages(r.system) + ConvertMessages(c, ms));
    SystemReturns(c, r.system, ms);
    ToolsComeBack(r.tools);
    if r.tools.Some? { ToolsNormal(r.tools.value); }
  }

  /** What the two tool translations make of a tool list. */
  function ToolsBack(tools: Option<seq<ATool>>): Option<seq<ATool>>
  {
    var os := if tools.Some? && tools.value != [] then Some(ToOTools(tools.value)) else None;
    var back := ToATools(os.UnwrapOr([]));
    if back != [] then Some(back) else None
  }

  lemma ToolsComeBack(tools: Option<seq<ATool>>)
    ensures ToolsBack(tools) == if tools.None? || tools.value == [] then None else Some(ToATools(ToOTools(tools.value)))
  {
    if tools.Some? {
      ToolDefinitions(tools.value);
      if tools.value != [] { assert |ToATools(ToOTools(tools.value))| > 0; }
    }
  }

  // ----- if and only if -----

  lemma NormalFormReturns(c: Codec, r: ARequest, model: string)
    requires Lawful(c) && NormalForm(r)
    ensures ToAnthropic(c, ToOpenAI(c, r, model)) == r.(model := Some(model), stream := Some(true))
  {
    SystemReturns(c, r.system, r.messages.value);
    ToolsComeBack(r.tools);
    if r.tools.Some? { ToolsReturn(r.tools.value); }
  }

  /** A request survives both translations, up to the model name and the stream flag, if and only
      if it is in normal form. */
  lemma RoundTripExactly(c: Codec, r: ARequest, model: string)
    requires Lawful(c)
    ensures ToAnthropic(c, ToOpenAI(c, r, model)) == r.(model := Some(model), stream := Some(true)) <==> NormalForm(r)
  {
    if NormalForm(r) {
      NormalFormReturns(c, r, model);
    } else if ToAnthropic(c, ToOpenAI(c, r, model)) == r.(model := Some(model), stream := Some(true)) {
      ReturnIsNormal(c, r, model);
    }
  }
}
