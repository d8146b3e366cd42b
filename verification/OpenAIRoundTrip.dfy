/** An OpenAI client's request, normalised to Anthropic form and forwarded in OpenAI form again
    (src/main.rs:642, then src/forward.rs:891; src/transform.rs:10-174, 403-533): what comes of every
    request, message by message, and exactly which requests come back as they were. */
module OpenAIRoundTrip {
  import opened Wrappers
  import opened Lists
  import opened Requests
  import opened RequestRoundTrip

  // ----- what becomes of each part -----

  function CallBack(c: Codec, call: OCall): seq<OCall>
  {
    if call.func.None? then []
    else
      var f := call.func.value;
      [OCall(Some(call.id.UnwrapOr("")),
             Some(OFunction(Some(f.name.UnwrapOr("")), Some(Reprinted(c, f.arguments.UnwrapOr("{}"))))))]
  }

  /** Arguments parsed and printed again; text that is not JSON becomes an empty object. */
  function Reprinted(c: Codec, arguments: string): string
  {
    c.encode(c.decode(arguments).UnwrapOr(EMPTY_OBJECT))
  }

  function CallBackOf(c: Codec): OCall -> seq<OCall>
  {
    call => CallBack(c, call)
  }

  function CallsBack(c: Codec, calls: seq<OCall>): seq<OCall>
  {
    FlatMap(CallBackOf(c), calls)
  }

  function AssistantBack(c: Codec, o: OMessage): OMessage
  {
    var text := o.content.AsStr().UnwrapOr("");
    var calls := CallsBack(c, o.toolCalls.UnwrapOr([]));
    OMessage(Some(Assistant),
             if text == "" && calls != [] then NullContent else OText(text),
             if calls != [] then Some(calls) else None,
             None)
  }

  function MessageBack(c: Codec, o: OMessage): seq<OMessage>
  {
    var text := o.content.AsStr().UnwrapOr("");
    match o.role.UnwrapOr(User)
    case System => []
    case Tool => [ToolMessage(o.toolCallId.UnwrapOr(""), text)]
    case Assistant => [AssistantBack(c, o)]
    case _ => [Plain(User, text)]
  }

  function MessageBackOf(c: Codec): OMessage -> seq<OMessage>
  {
    o => MessageBack(c, o)
  }

  /** The text of the last system message. */
  function SystemText(os: seq<OMessage>): string
  {
    if os == [] then ""
    else
      var o := os[|os| - 1];
      if o.role == Some(System) then o.content.AsStr().UnwrapOr("") else SystemText(os[..|os| - 1])
  }

  function SystemBack(os: seq<OMessage>): seq<OMessage>
  {
    if SystemText(os) == "" then [] else [Plain(System, SystemText(os))]
  }

  function OToolBack(t: OTool): seq<OTool>
  {
    if t.func.None? then []
    else
      var f := t.func.value;
      var name := f.name.UnwrapOr("");
      [OTool(Some(OToolFunction(Some(if |name| > 64 then name[..64] else name),
                                Some(f.description.UnwrapOr("")),
                                Some(f.parameters.UnwrapOr(EMPTY_OBJECT)))))]
  }

  function OToolsBack(tools: Option<seq<OTool>>): Option<seq<OTool>>
  {
    var ts := FlatMap(OToolBack, tools.UnwrapOr([]));
    if ts == [] then None else Some(ts)
  }

  // ----- messages -----

  lemma {:induction false} ConvertAppend(c: Codec, a: seq<AMessage>, b: seq<AMessage>)
    ensures ConvertMessages(c, a + b) == ConvertMessages(c, a) + ConvertMessages(c, b)
  {
    if b == [] {
      NoMore(a);
      NoMore(ConvertMessages(c, a));
    } else {
      var k := |b| - 1;
      assert (a + b)[..|a + b| - 1] == a + b[..k];
      ConvertAppend(c, a, b[..k]);
      Regroup(ConvertMessages(c, a), ConvertMessages(c, b[..k]), ConvertMessage(c, b[k]));
    }
  }

  lemma ConvertOne(c: Codec, m: AMessage)
    ensures ConvertMessages(c, [m]) == ConvertMessage(c, m)
  {
    assert [m][..0] == [];
  }

  /** Tool results that wait come back as the tool messages they were. */
  lemma FlushBack(c: Codec, pending: seq<Block>)
    requires forall i :: 0 <= i < |pending| ==> IsToolResult(pending[i])
    ensures ConvertMessages(c, Flush(pending)) == ToolMessages(ToolResults(pending))
  {
    if pending != [] {
      var m := AMessage(Some(User), Blocks(pending));
      ConvertOne(c, m);
      ResultsConvert(c, m);
    }
  }

  lemma FinishedBack(c: Codec, p: Progress)
    requires forall i :: 0 <= i < |p.pending| ==> IsToolResult(p.pending[i])
    ensures ConvertMessages(c, Finished(p)) == ConvertMessages(c, p.messages) + ToolMessages(ToolResults(p.pending))
  {
    ConvertAppend(c, p.messages, Flush(p.pending));
    FlushBack(c, p.pending);
  }

  lemma ResultBack(pending: seq<Block>, id: string, text: string)
    ensures ToolMessages(ToolResults(pending + [ToolResult(id, text)])) ==
            ToolMessages(ToolResults(pending)) + [ToolMessage(id, text)]
  {
    var b := ToolResult(id, text);
    assert (pending + [b])[..|pending|] == pending;
    var rs := ToolResults(pending);
    assert (rs + [(id, text)])[..|rs|] == rs;
  }

  lemma PendBack(c: Codec, p: Progress, id: string, text: string)
    requires forall i :: 0 <= i < |p.pending| ==> IsToolResult(p.pending[i])
    ensures ConvertMessages(c, Finished(p.(pending := p.pending + [ToolResult(id, text)]))) ==
            ConvertMessages(c, Finished(p)) + [ToolMessage(id, text)]
  {
    var q := p.(pending := p.pending + [ToolResult(id, text)]);
    FinishedBack(c, p);
    FinishedBack(c, q);
    ResultBack(p.pending, id, text);
    Regroup(ConvertMessages(c, p.messages), ToolMessages(ToolResults(p.pending)), [ToolMessage(id, text)]);
  }

  lemma PushBack(c: Codec, p: Progress, m: AMessage)
    ensures ConvertMessages(c, Finished(Progress(p.system, p.messages + Flush(p.pending) + [m], []))) ==
            ConvertMessages(c, Finished(p)) + ConvertMessage(c, m)
  {
    NoMore(Finished(p) + [m]);
    ConvertAppend(c, Finished(p), [m]);
    ConvertOne(c, m);
  }

  lemma UserBack(c: Codec, text: string)
    ensures ConvertMessage(c, AMessage(Some(User), Blocks([TextBlock(text)]))) == [Plain(User, text)]
  {
    FlatMapOne(TextPart, TextBlock(text));
    FlatMapOne(ResultPair, TextBlock(text));
  }

  // ----- assistant messages -----

  lemma OneCallBack(c: Codec, uses: seq<Block>, call: OCall)
    ensures ToolCalls(c, uses + ToUse(c, call)) == ToolCalls(c, uses) + CallBack(c, call)
    ensures TextParts(uses + ToUse(c, call)) == TextParts(uses)
  {
    if call.func.None? {
      NoMore(uses);
      NoMore(ToolCalls(c, uses));
    } else {
      assert (uses + ToUse(c, call))[..|uses|] == uses;
      NoMore(TextParts(uses));
    }
  }

  lemma {:induction false} UsesBack(c: Codec, calls: seq<OCall>)
    ensures ToolCalls(c, ToUses(c, calls)) == CallsBack(c, calls)
    ensures TextParts(ToUses(c, calls)) == []
  {
    if calls != [] {
      var k := |calls| - 1;
      UsesBack(c, calls[..k]);
      OneCallBack(c, ToUses(c, calls[..k]), calls[k]);
    }
  }

  lemma TextFirst(c: Codec, text: string, uses: seq<Block>)
    requires TextParts(uses) == []
    ensures TextParts([TextBlock(text)] + uses) == [text]
    ensures ToolCalls(c, [TextBlock(text)] + uses) == ToolCalls(c, uses)
  {
    FlatMapAppend(TextPart, [TextBlock(text)], uses);
    FlatMapOne(TextPart, TextBlock(text));
    CallsAfterText(c, TextBlock(text), uses);
  }

  lemma {:induction false} NoCallsNoUses(c: Codec, calls: seq<OCall>)
    ensures ToUses(c, calls) == [] <==> CallsBack(c, calls) == []
  {
    if calls != [] { NoCallsNoUses(c, calls[..|calls| - 1]); }
  }

  lemma AssistantBlocksBack(c: Codec, o: OMessage)
    ensures AssistantMessage(TextParts(AssistantBlocks(c, o)), ToolCalls(c, AssistantBlocks(c, o))) == AssistantBack(c, o)
  {
    var text := o.content.AsStr().UnwrapOr("");
    var calls := o.toolCalls.UnwrapOr([]);
    var uses := ToUses(c, calls);
    UsesBack(c, calls);
    NoCallsNoUses(c, calls);
    if text != "" || uses == [] {
      TextFirst(c, text, uses);
      NoMore([TextBlock(text)]);
    } else {
      assert [] + uses == uses;
    }
  }

  lemma AssistantGoesBack(c: Codec, o: OMessage)
    ensures ConvertMessage(c, AMessage(Some(Assistant), Blocks(AssistantBlocks(c, o)))) == [AssistantBack(c, o)]
  {
    AssistantBlocksBack(c, o);
  }

  // ----- every message comes back on its own -----

  lemma StepBack(c: Codec, p: Progress, o: OMessage)
    requires forall i :: 0 <= i < |p.pending| ==> IsToolResult(p.pending[i])
    ensures ConvertMessages(c, Finished(StepMessage(c, p, o))) == ConvertMessages(c, Finished(p)) + MessageBack(c, o)
  {
    var role := o.role.UnwrapOr(User);
    var text := o.content.AsStr().UnwrapOr("");
    if role == System {
      NoMore(ConvertMessages(c, Finished(p)));
    } else if role == Tool {
      PendBack(c, p, o.toolCallId.UnwrapOr(""), text);
    } else if role == Assistant {
      PushBack(c, p, AMessage(Some(Assistant), Blocks(AssistantBlocks(c, o))));
      AssistantGoesBack(c, o);
    } else {
      PushBack(c, p, AMessage(Some(User), Blocks([TextBlock(text)])));
      UserBack(c, text);
    }
  }

  lemma {:induction false} MessagesBack(c: Codec, os: seq<OMessage>)
    ensures ConvertMessages(c, Finished(StepMessages(c, START, os))) == FlatMap(MessageBackOf(c), os)
  {
    if os != [] {
      var k := |os| - 1;
      MessagesBack(c, os[..k]);
      StepsNormal(c, START, os[..k]);
      StepBack(c, StepMessages(c, START, os[..k]), os[k]);
    }
  }

  lemma {:induction false} SystemIs(c: Codec, os: seq<OMessage>)
    ensures StepMessages(c, START, os).system.UnwrapOr("") == SystemText(os)
  {
    if os != [] { SystemIs(c, os[..|os| - 1]); }
  }

  lemma {:induction false} ToolsGoBack(ts: seq<OTool>)
    ensures ToOTools(ToATools(ts)) == FlatMap(OToolBack, ts)
  {
    if ts != [] {
      var k := |ts| - 1;
      ToolsGoBack(ts[..k]);
      OneToolBack(ToATools(ts[..k]), ts[k]);
    }
  }

  lemma OneToolBack(before: seq<ATool>, t: OTool)
    ensures ToOTools(before + ToATools([t])) == ToOTools(before) + OToolBack(t)
  {
  }

  /** Every request, whatever it holds: each message other than a system message comes back in its place,
      rewritten on its own; the last system text comes first, if it is not empty; tool definitions without a
      function are dropped and the others completed. */
  lemma WhatComesBack(c: Codec, o: ORequest, model: string)
    ensures ToOpenAI(c, ToAnthropic(c, o), model) ==
            ORequest(Some(model), Some(true),
                     Some(SystemBack(o.messages.UnwrapOr([])) + FlatMap(MessageBackOf(c), o.messages.UnwrapOr([]))),
                     o.maxTokens, o.temperature, OToolsBack(o.tools))
  {
    MessagesBack(c, o.messages.UnwrapOr([]));
    SystemIs(c, o.messages.UnwrapOr([]));
    ToolsGoBack(o.tools.UnwrapOr([]));
    ToolsLeft(o.tools.UnwrapOr([]));
  }

  lemma {:induction false} ToolsLeft(ts: seq<OTool>)
    ensures ToATools(ts) == [] <==> FlatMap(OToolBack, ts) == []
  {
    if ts != [] { ToolsLeft(ts[..|ts| - 1]); }
  }

  // ----- normal form -----

  /** The arguments are JSON as the encoder prints it. */
  predicate Canonical(c: Codec, arguments: string)
  {
    c.decode(arguments).Some? && c.encode(c.decode(arguments).value) == arguments
  }

  predicate NormalCall(c: Codec, call: OCall)
  {
    && call.other == map[] && call.id.Some? && call.func.Some?
    && call.func.value.other == map[] && call.func.value.name.Some? && call.func.value.arguments.Some?
    && Canonical(c, call.func.value.arguments.value)
  }

  predicate NormalCalls(c: Codec, calls: seq<OCall>)
  {
    forall i :: 0 <= i < |calls| ==> NormalCall(c, calls[i])
  }

  /** Text, which may be empty only if there are no calls; or a null content with calls. */
  predicate NormalOAssistant(c: Codec, o: OMessage)
  {
    && o.role == Some(Assistant) && o.toolCallId.None? && o.other == map[]
    && (o.toolCalls.Some? ==> o.toolCalls.value != [] && NormalCalls(c, o.toolCalls.value))
    && match o.content
       case OText(s) => s != "" || o.toolCalls.None?
       case NullContent => o.toolCalls.Some?
       case _ => false
  }

  predicate IsPlain(o: OMessage, role: Role)
  {
    o.content.OText? && o == Plain(role, o.content.s)
  }

  predicate IsToolMessage(o: OMessage)
  {
    o.content.OText? && o.toolCallId.Some? && o == ToolMessage(o.toolCallId.value, o.content.s)
  }

  predicate NormalOMessage(c: Codec, o: OMessage)
  {
    IsPlain(o, User) || IsToolMessage(o) || NormalOAssistant(c, o)
  }

  predicate AllNormal(c: Codec, os: seq<OMessage>)
  {
    forall i :: 0 <= i < |os| ==> NormalOMessage(c, os[i])
  }

  predicate IsSystemText(o: OMessage)
  {
    IsPlain(o, System) && o.content.s != ""
  }

  /** The messages after a system text that comes first. */
  function AfterSystem(os: seq<OMessage>): seq<OMessage>
  {
    if os != [] && IsSystemText(os[0]) then os[1..] else os
  }

  /** At most one system message, which comes first and says something; the others each normal. */
  predicate NormalOMessages(c: Codec, os: seq<OMessage>)
  {
    AllNormal(c, AfterSystem(os))
  }

  predicate NormalOTool(t: OTool)
  {
    && t.other == map[] && t.func.Some? && t.func.value.other == map[]
    && t.func.value.name.Some? && |t.func.value.name.value| <= 64
    && t.func.value.description.Some? && t.func.value.parameters.Some?
  }

  predicate NormalOTools(tools: Option<seq<OTool>>)
  {
    tools.Some? ==> tools.value != [] && forall i :: 0 <= i < |tools.value| ==> NormalOTool(tools.value[i])
  }

  predicate NormalORequest(c: Codec, o: ORequest)
  {
    o.other == map[] && o.messages.Some? && NormalOMessages(c, o.messages.value) && NormalOTools(o.tools)
  }

  // ----- normal parts are those that stay as they are -----

  lemma CallStays(c: Codec, call: OCall)
    requires Lawful(c)
    ensures CallBack(c, call) == [call] <==> NormalCall(c, call)
  {
    if call.func.Some? { ArgumentsStay(c, call.func.value.arguments.UnwrapOr("{}")); }
  }

  lemma ArgumentsStay(c: Codec, arguments: string)
    requires Lawful(c)
    ensures Reprinted(c, arguments) == arguments <==> Canonical(c, arguments)
  {
    assert c.decode(c.encode(EMPTY_OBJECT)) == Some(EMPTY_OBJECT);
  }

  lemma CallsStay(c: Codec, calls: seq<OCall>)
    requires Lawful(c)
    ensures CallsBack(c, calls) == calls <==> NormalCalls(c, calls)
  {
    FlatMapFixed(CallBackOf(c), calls);
    forall i | 0 <= i < |calls| ensures CallBackOf(c)(calls[i]) == [calls[i]] <==> NormalCall(c, calls[i]) {
      CallStays(c, calls[i]);
    }
  }

  lemma AssistantStays(c: Codec, o: OMessage)
    requires Lawful(c) && o.role == Some(Assistant)
    ensures AssistantBack(c, o) == o <==> NormalOAssistant(c, o)
  {
    CallsStay(c, o.toolCalls.UnwrapOr([]));
  }

  lemma MessageStays(c: Codec, o: OMessage)
    requires Lawful(c)
    ensures MessageBack(c, o) == [o] <==> NormalOMessage(c, o)
  {
    if o.role == Some(Assistant) { AssistantStays(c, o); }
  }

  lemma MessagesStay(c: Codec, os: seq<OMessage>)
    requires Lawful(c)
    ensures FlatMap(MessageBackOf(c), os) == os <==> AllNormal(c, os)
  {
    FlatMapFixed(MessageBackOf(c), os);
    forall i | 0 <= i < |os| ensures MessageBackOf(c)(os[i]) == [os[i]] <==> NormalOMessage(c, os[i]) {
      MessageStays(c, os[i]);
    }
  }

  lemma OToolsStay(tools: Option<seq<OTool>>)
    ensures OToolsBack(tools) == tools <==> NormalOTools(tools)
  {
    var ts := tools.UnwrapOr([]);
    FlatMapFixed(OToolBack, ts);
    forall i | 0 <= i < |ts| ensures OToolBack(ts[i]) == [ts[i]] <==> NormalOTool(ts[i]) {
      OToolStays(ts[i]);
    }
  }

  lemma OToolStays(t: OTool)
    ensures OToolBack(t) == [t] <==> NormalOTool(t)
  {
  }

  // ----- the system message -----

  predicate NoSystem(os: seq<OMessage>)
  {
    forall i :: 0 <= i < |os| ==> os[i].role != Some(System)
  }

  lemma {:induction false} SystemTextFirst(o: OMessage, os: seq<OMessage>)
    requires o.role == Some(System)
    requires NoSystem(os)
    ensures SystemText([o] + os) == o.content.AsStr().UnwrapOr("")
  {
    if os == [] {
      NoMore([o]);
    } else {
      assert ([o] + os)[..|os|] == [o] + os[..|os| - 1];
      SystemTextFirst(o, os[..|os| - 1]);
    }
  }

  lemma {:induction false} NoSystemText(os: seq<OMessage>)
    requires NoSystem(os)
    ensures SystemText(os) == ""
  {
    if os != [] { NoSystemText(os[..|os| - 1]); }
  }

  /** Normal messages come back: the system text first, and the rest as they are. */
  lemma NormalMessagesStay(c: Codec, os: seq<OMessage>)
    requires Lawful(c) && NormalOMessages(c, os)
    ensures SystemBack(os) + FlatMap(MessageBackOf(c), os) == os
  {
    var rest := AfterSystem(os);
    NormalNoSystem(c, rest);
    if |rest| < |os| {
      assert os == [os[0]] + rest;
      SystemFirstStays(c, os[0], rest);
    } else {
      NoSystemText(os);
      MessagesStay(c, os);
      assert [] + os == os;
    }
  }

  lemma NormalNoSystem(c: Codec, os: seq<OMessage>)
    requires AllNormal(c, os)
    ensures NoSystem(os)
  {
  }

  lemma SystemFirstStays(c: Codec, o: OMessage, rest: seq<OMessage>)
    requires Lawful(c) && IsSystemText(o) && AllNormal(c, rest) && NoSystem(rest)
    ensures SystemBack([o] + rest) + FlatMap(MessageBackOf(c), [o] + rest) == [o] + rest
  {
    SystemTextFirst(o, rest);
    SystemDropped(c, o, rest);
    MessagesStay(c, rest);
  }

  lemma SystemDropped(c: Codec, o: OMessage, rest: seq<OMessage>)
    requires o.role == Some(System)
    ensures FlatMap(MessageBackOf(c), [o] + rest) == FlatMap(MessageBackOf(c), rest)
  {
    FlatMapAppend(MessageBackOf(c), [o], rest);
    FlatMapOne(MessageBackOf(c), o);
    assert [] + FlatMap(MessageBackOf(c), rest) == FlatMap(MessageBackOf(c), rest);
  }

  lemma StayingMessagesNormal(c: Codec, os: seq<OMessage>)
    requires Lawful(c) && SystemBack(os) + FlatMap(MessageBackOf(c), os) == os
    ensures NormalOMessages(c, os)
  {
    if SystemBack(os) == [] {
      assert [] + FlatMap(MessageBackOf(c), os) == FlatMap(MessageBackOf(c), os);
      MessagesStay(c, os);
    } else {
      var (o, rest) := (Plain(System, SystemText(os)), FlatMap(MessageBackOf(c), os));
      assert os == [o] + rest && os[1..] == rest;
      SystemDropped(c, o, rest);
      MessagesStay(c, rest);
    }
  }

  // ----- if and only if -----

  /** An OpenAI request survives being normalised and forwarded, up to the model name and the stream
      flag, if and only if it is in normal form. */
  lemma OpenAIRoundTripExactly(c: Codec, o: ORequest, model: string)
    requires Lawful(c)
    ensures ToOpenAI(c, ToAnthropic(c, o), model) == o.(model := Some(model), stream := Some(true)) <==>
            NormalORequest(c, o)
  {
    WhatComesBack(c, o, model);
    OToolsStay(o.tools);
    if o.messages.Some? {
      if NormalOMessages(c, o.messages.value) { NormalMessagesStay(c, o.messages.value); }
      else if SystemBack(o.messages.value) + FlatMap(MessageBackOf(c), o.messages.value) == o.messages.value {
        StayingMessagesNormal(c, o.messages.value);
      }
    }
  }

  // ----- one pass is enough -----

  lemma {:induction false} CallsBackNormal(c: Codec, calls: seq<OCall>)
    requires Lawful(c)
    ensures NormalCalls(c, CallsBack(c, calls))
  {
    if calls != [] {
      CallsBackNormal(c, calls[..|calls| - 1]);
      CallBackNormal(c, calls[|calls| - 1]);
    }
  }

  lemma CallBackNormal(c: Codec, call: OCall)
    requires Lawful(c)
    ensures NormalCalls(c, CallBack(c, call))
  {
    if call.func.Some? {
      var j := c.decode(call.func.value.arguments.UnwrapOr("{}")).UnwrapOr(EMPTY_OBJECT);
      assert c.decode(c.encode(j)) == Some(j);
    }
  }

  lemma {:induction false} MessagesBackNormal(c: Codec, os: seq<OMessage>)
    requires Lawful(c)
    ensures AllNormal(c, FlatMap(MessageBackOf(c), os))
  {
    if os != [] {
      MessagesBackNormal(c, os[..|os| - 1]);
      CallsBackNormal(c, os[|os| - 1].toolCalls.UnwrapOr([]));
    }
  }

  lemma {:induction false} OToolsBackNormal(ts: seq<OTool>)
    ensures forall i :: 0 <= i < |FlatMap(OToolBack, ts)| ==> NormalOTool(FlatMap(OToolBack, ts)[i])
  {
    if ts != [] { OToolsBackNormal(ts[..|ts| - 1]); }
  }

  /** Whatever the client sent, what is forwarded is in normal form: passing it through once more
      would change nothing but the model name. */
  lemma SecondTripChangesNothing(c: Codec, o: ORequest, model: string, model': string)
    requires Lawful(c)
    ensures var once := ToOpenAI(c, ToAnthropic(c, o), model);
            NormalORequest(c, once) && ToOpenAI(c, ToAnthropic(c, once), model') == once.(model := Some(model'))
  {
    var os := o.messages.UnwrapOr([]);
    WhatComesBack(c, o, model);
    MessagesBackNormal(c, os);
    OToolsBackNormal(o.tools.UnwrapOr([]));
    BackNormal(c, SystemText(os), FlatMap(MessageBackOf(c), os));
    OpenAIRoundTripExactly(c, ToOpenAI(c, ToAnthropic(c, o), model), model');
  }

  lemma BackNormal(c: Codec, text: string, rest: seq<OMessage>)
    requires AllNormal(c, rest)
    ensures NormalOMessages(c, (if text == "" then [] else [Plain(System, text)]) + rest)
  {
    if text == "" { assert [] + rest == rest; } else { assert ([Plain(System, text)] + rest)[1..] == rest; }
  }
}
