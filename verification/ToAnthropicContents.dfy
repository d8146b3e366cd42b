/** What an OpenAI request says, all of it, and where that stands in its Anthropic form
    (src/transform.rs:403-533). Nothing here is said in terms of the translator. */
module ToAnthropicContents {
  import opened Wrappers
  import opened Lists
  import opened Requests

  /** The text of a message; content that is not a string says nothing. */
  function Said(o: OMessage): string
  {
    if o.content.OText? then o.content.s else ""
  }

  function RoleOf(o: OMessage): Role
  {
    if o.role.Some? then o.role.value else User
  }

  // ----- blocks -----

  predicate IsTextBlock(b: Block, text: string)
  {
    b.kind == TextKind && b.text == Some(text)
    && b.id.None? && b.name.None? && b.input.None? && b.toolUseId.None? && b.content.NoResult? && b.other == map[]
  }

  function Parsed(c: Codec, arguments: string): Json
  {
    var j := c.decode(arguments);
    if j.Some? then j.value else Object(map[])
  }

  /** A tool use carries the call's id, its name and its arguments as JSON, or an empty object if they are not. */
  predicate UseFor(c: Codec, b: Block, call: OCall)
  {
    && b.kind == ToolUseKind && b.id == Some(call.id.UnwrapOr("")) && call.func.Some?
    && b.name == Some(call.func.value.name.UnwrapOr(""))
    && b.input == Some(Parsed(c, call.func.value.arguments.UnwrapOr("{}")))
    && b.text.None? && b.toolUseId.None? && b.content.NoResult? && b.other == map[]
  }

  /** A tool result answers for a tool message. */
  predicate ResultFor(b: Block, o: OMessage)
  {
    && b.kind == ToolResultKind && b.toolUseId == Some(o.toolCallId.UnwrapOr("")) && b.content == ResultText(Said(o))
    && b.text.None? && b.id.None? && b.name.None? && b.input.None? && b.other == map[]
  }

  predicate HasFunction(call: OCall)
  {
    call.func.Some?
  }

  ghost predicate UsesAt(c: Codec, bs: seq<Block>, calls: seq<OCall>, at: seq<nat>)
  {
    |bs| == |at| && forall j :: 0 <= j < |at| && at[j] < |calls| ==> UseFor(c, bs[j], calls[at[j]])
  }

  /** One tool use for each call with a function, in order. */
  ghost predicate UsesFor(c: Codec, bs: seq<Block>, calls: seq<OCall>)
  {
    exists at :: Places(HasFunction, calls, at) && UsesAt(c, bs, calls, at)
  }

  function CallUse(c: Codec): OCall -> seq<Block>
  {
    call => ToUse(c, call)
  }

  lemma {:induction false} ToUsesAreUses(c: Codec, calls: seq<OCall>)
    ensures ToUses(c, calls) == FlatMap(CallUse(c), calls)
  {
    if calls != [] { ToUsesAreUses(c, calls[..|calls| - 1]); }
  }

  lemma ToUsesFor(c: Codec, calls: seq<OCall>)
    ensures UsesFor(c, ToUses(c, calls), calls)
  {
    var at := FlatMapPlaces(CallUse(c), HasFunction, calls);
    ToUsesAreUses(c, calls);
    forall j | 0 <= j < |at| ensures UseFor(c, ToUses(c, calls)[j], calls[at[j]]) {
      assert CallUse(c)(calls[at[j]]) == [ToUses(c, calls)[j]];
      assert HasFunction(calls[at[j]]) by { assert at[j] in at; }
    }
    assert UsesAt(c, ToUses(c, calls), calls, at);
  }

  // ----- messages -----

  /** An assistant message: its text, if it says anything, then its tool uses; or one empty text. */
  ghost predicate AssistantFrom(c: Codec, o: OMessage, bs: seq<Block>)
  {
    var calls := o.toolCalls.UnwrapOr([]);
    if Said(o) != "" then bs != [] && IsTextBlock(bs[0], Said(o)) && UsesFor(c, bs[1..], calls)
    else if exists i :: 0 <= i < |calls| && HasFunction(calls[i]) then UsesFor(c, bs, calls)
    else |bs| == 1 && IsTextBlock(bs[0], "")
  }

  /** A message that is neither a system nor a tool message. */
  ghost predicate TurnFrom(c: Codec, o: OMessage, m: AMessage)
  {
    && RoleOf(o) !in {System, Tool} && m.content.Blocks?
    && (RoleOf(o) == Assistant ==> m.role == Some(Assistant) && AssistantFrom(c, o, m.content.bs))
    && (RoleOf(o) != Assistant ==>
          m.role == Some(User) && |m.content.bs| == 1 && IsTextBlock(m.content.bs[0], Said(o)))
  }

  /** A run of tool messages becomes one user message with their results. */
  ghost predicate ResultsFrom(run: seq<OMessage>, m: AMessage)
  {
    && run != [] && m.role == Some(User) && m.content.Blocks? && |m.content.bs| == |run|
    && forall i :: 0 <= i < |run| ==> RoleOf(run[i]) == Tool && ResultFor(m.content.bs[i], run[i])
  }

  ghost predicate ComesFrom(c: Codec, part: seq<OMessage>, m: AMessage)
  {
    m.other == map[] && (ResultsFrom(part, m) || (|part| == 1 && TurnFrom(c, part[0], m)))
  }

  predicate IsToolRun(part: seq<OMessage>)
  {
    part != [] && RoleOf(part[0]) == Tool
  }

  /** The messages come from these parts of the request one by one; no two runs of tool messages touch. */
  ghost predicate AllComeFrom(c: Codec, parts: seq<seq<OMessage>>, ms: seq<AMessage>)
  {
    && |parts| == |ms|
    && (forall i :: 0 <= i < |ms| ==> ComesFrom(c, parts[i], ms[i]))
    && (forall i :: 0 < i < |parts| ==> !(IsToolRun(parts[i - 1]) && IsToolRun(parts[i])))
  }

  function NotSystem(o: OMessage): seq<OMessage>
  {
    if RoleOf(o) == System then [] else [o]
  }

  /** The request's messages without its system messages. */
  function Turns(os: seq<OMessage>): seq<OMessage>
  {
    FlatMap(NotSystem, os)
  }

  lemma AssistantComes(c: Codec, o: OMessage)
    ensures AssistantFrom(c, o, AssistantBlocks(c, o))
  {
    var calls := o.toolCalls.UnwrapOr([]);
    var uses := ToUses(c, calls);
    ToUsesFor(c, calls);
    NoUsesNoFunctions(c, calls);
    if Said(o) != "" {
      HeadAndRest(TextBlock(Said(o)), uses);
    } else {
      assert [] + uses == uses;
    }
  }

  lemma NoUsesNoFunctions(c: Codec, calls: seq<OCall>)
    ensures ToUses(c, calls) == [] <==> !exists i :: 0 <= i < |calls| && HasFunction(calls[i])
  {
    var at := FlatMapPlaces(CallUse(c), HasFunction, calls);
    ToUsesAreUses(c, calls);
    if ToUses(c, calls) != [] { assert at[0] in at; }
  }

  // ----- reading the messages one by one -----

  ghost predicate Waiting(run: seq<OMessage>, pending: seq<Block>)
  {
    |pending| == |run| && forall i :: 0 <= i < |run| ==> RoleOf(run[i]) == Tool && ResultFor(pending[i], run[i])
  }

  ghost predicate EndsInRun(parts: seq<seq<OMessage>>)
  {
    parts != [] && IsToolRun(parts[|parts| - 1])
  }

  /** The messages so far come from `parts`, and the results that wait from `run`, which follows them. */
  ghost predicate Reading(c: Codec, p: Progress, parts: seq<seq<OMessage>>, run: seq<OMessage>)
  {
    AllComeFrom(c, parts, p.messages) && !EndsInRun(parts) && Waiting(run, p.pending)
  }

  function WithRun(parts: seq<seq<OMessage>>, run: seq<OMessage>): seq<seq<OMessage>>
  {
    if run == [] then parts else parts + [run]
  }

  lemma OneMore(c: Codec, parts: seq<seq<OMessage>>, ms: seq<AMessage>, part: seq<OMessage>, m: AMessage)
    requires AllComeFrom(c, parts, ms) && ComesFrom(c, part, m) && !(EndsInRun(parts) && IsToolRun(part))
    ensures AllComeFrom(c, parts + [part], ms + [m])
  {
    forall i | 0 <= i < |ms| + 1 ensures ComesFrom(c, (parts + [part])[i], (ms + [m])[i]) {
      if i < |ms| { assert ComesFrom(c, parts[i], ms[i]); }
    }
    forall i | 0 < i < |parts| + 1
      ensures !(IsToolRun((parts + [part])[i - 1]) && IsToolRun((parts + [part])[i]))
    {
      if i < |parts| { assert !(IsToolRun(parts[i - 1]) && IsToolRun(parts[i])); }
    }
  }

  lemma FlushComes(c: Codec, p: Progress, parts: seq<seq<OMessage>>, run: seq<OMessage>)
    requires Reading(c, p, parts, run)
    ensures AllComeFrom(c, WithRun(parts, run), Finished(p))
    ensures Concat(WithRun(parts, run)) == Concat(parts) + run
  {
    if run == [] {
      NoMore(p.messages);
      NoMore(Concat(parts));
    } else {
      var m := AMessage(Some(User), Blocks(p.pending));
      assert ResultsFrom(run, m);
      OneMore(c, parts, p.messages, run, m);
      ConcatMore(parts, run);
    }
  }

  /** A message that is neither a system nor a tool message is pushed after what waits. */
  lemma PushComes(c: Codec, p: Progress, parts: seq<seq<OMessage>>, run: seq<OMessage>, o: OMessage, m: AMessage)
    returns (parts': seq<seq<OMessage>>)
    requires Reading(c, p, parts, run) && TurnFrom(c, o, m) && m.other == map[]
    ensures Reading(c, Progress(p.system, p.messages + Flush(p.pending) + [m], []), parts', [])
    ensures Concat(parts') == Concat(parts) + run + [o]
  {
    FlushComes(c, p, parts, run);
    parts' := WithRun(parts, run) + [[o]];
    OneMore(c, WithRun(parts, run), Finished(p), [o], m);
    ConcatMore(WithRun(parts, run), [o]);
  }

  lemma TurnComes(c: Codec, o: OMessage)
    requires RoleOf(o) !in {System, Tool}
    ensures TurnFrom(c, o, if RoleOf(o) == Assistant then AMessage(Some(Assistant), Blocks(AssistantBlocks(c, o)))
                           else AMessage(Some(User), Blocks([TextBlock(Said(o))])))
  {
    AssistantComes(c, o);
  }

  lemma StepComes(c: Codec, p: Progress, parts: seq<seq<OMessage>>, run: seq<OMessage>, o: OMessage)
    returns (parts': seq<seq<OMessage>>, run': seq<OMessage>)
    requires Reading(c, p, parts, run)
    ensures Reading(c, StepMessage(c, p, o), parts', run')
    ensures Concat(parts') + run' == Concat(parts) + run + NotSystem(o)
  {
    parts', run' := parts, run;
    if RoleOf(o) == System {
      NoMore(Concat(parts) + run);
    } else if RoleOf(o) == Tool {
      run' := run + [o];
      Regroup(Concat(parts), run, [o]);
    } else {
      TurnComes(c, o);
      parts' := PushComes(c, p, parts, run, o,
                          if RoleOf(o) == Assistant then AMessage(Some(Assistant), Blocks(AssistantBlocks(c, o)))
                          else AMessage(Some(User), Blocks([TextBlock(Said(o))])));
      run' := [];
      NoMore(Concat(parts'));
    }
  }

  lemma {:induction false} StepsCome(c: Codec, os: seq<OMessage>)
    returns (parts: seq<seq<OMessage>>, run: seq<OMessage>)
    ensures Reading(c, StepMessages(c, START, os), parts, run)
    ensures Concat(parts) + run == Turns(os)
  {
    if os == [] {
      parts, run := [], [];
    } else {
      var k := |os| - 1;
      var parts0, run0 := StepsCome(c, os[..k]);
      parts, run := StepComes(c, StepMessages(c, START, os[..k]), parts0, run0, os[k]);
    }
  }

  // ----- the system prompt and the tools -----

  /** The prompt is the text of the last system message, if there is one. */
  ghost predicate PromptFrom(os: seq<OMessage>, prompt: Prompt)
  {
    if prompt == NoPrompt then forall i :: 0 <= i < |os| ==> RoleOf(os[i]) != System
    else exists i :: IsLastSystem(os, i) && prompt == PromptText(Said(os[i]))
  }

  ghost predicate IsLastSystem(os: seq<OMessage>, i: int)
  {
    0 <= i < |os| && RoleOf(os[i]) == System && forall j :: i < j < |os| ==> RoleOf(os[j]) != System
  }

  function PromptOf(system: Option<string>): Prompt
  {
    if system.Some? then PromptText(system.value) else NoPrompt
  }

  lemma {:induction false} SystemComes(c: Codec, os: seq<OMessage>)
    ensures PromptFrom(os, PromptOf(StepMessages(c, START, os).system))
  {
    if os != [] {
      var k := |os| - 1;
      SystemComes(c, os[..k]);
      var before := PromptOf(StepMessages(c, START, os[..k]).system);
      if RoleOf(os[k]) == System {
        assert IsLastSystem(os, k);
      } else {
        PromptStays(os, before);
      }
    }
  }

  lemma PromptStays(os: seq<OMessage>, prompt: Prompt)
    requires os != [] && RoleOf(os[|os| - 1]) != System && PromptFrom(os[..|os| - 1], prompt)
    ensures PromptFrom(os, prompt)
  {
    var k := |os| - 1;
    if prompt == NoPrompt {
      assert forall i :: 0 <= i < k ==> os[..k][i] == os[i];
    } else {
      var i :| IsLastSystem(os[..k], i) && prompt == PromptText(Said(os[..k][i]));
      assert IsLastSystem(os, i);
    }
  }

  predicate HasDefinition(t: OTool)
  {
    t.func.Some?
  }

  predicate DefinedBy(t: ATool, o: OTool)
  {
    && o.func.Some?
    && t.name == Some(o.func.value.name.UnwrapOr(""))
    && t.description == Some(o.func.value.description.UnwrapOr(""))
    && t.inputSchema == Some(o.func.value.parameters.UnwrapOr(Object(map[]))) && t.other == map[]
  }

  ghost predicate DefinedAt(tools: seq<ATool>, otools: seq<OTool>, at: seq<nat>)
  {
    |tools| == |at| && forall j :: 0 <= j < |at| && at[j] < |otools| ==> DefinedBy(tools[j], otools[at[j]])
  }

  /** One tool for each definition with a function, in order; none at all if there is none. */
  ghost predicate ToolsFrom(otools: seq<OTool>, tools: Option<seq<ATool>>)
  {
    && (tools.Some? ==> tools.value != [])
    && exists at :: Places(HasDefinition, otools, at) && DefinedAt(tools.UnwrapOr([]), otools, at)
  }

  function OneTool(o: OTool): seq<ATool>
  {
    ToATools([o])
  }

  lemma {:induction false} ToolsOneByOne(otools: seq<OTool>)
    ensures ToATools(otools) == FlatMap(OneTool, otools)
  {
    if otools != [] {
      var k := |otools| - 1;
      ToolsOneByOne(otools[..k]);
      var none: seq<ATool> := [];
      assert [otools[k]][..0] == [] && ToATools([otools[k]][..0]) == none;
      assert none + OneTool(otools[k]) == OneTool(otools[k]);
    }
  }

  lemma OneToolIs(o: OTool)
    ensures |OneTool(o)| == if HasDefinition(o) then 1 else 0
    ensures HasDefinition(o) ==> DefinedBy(OneTool(o)[0], o)
  {
    var none: seq<ATool> := [];
    assert [o][..0] == [] && ToATools([o][..0]) == none;
    if o.func.Some? {
      var f := o.func.value;
      var t := ATool(Some(f.name.UnwrapOr("")), Some(f.description.UnwrapOr("")), Some(f.parameters.UnwrapOr(EMPTY_OBJECT)));
      assert OneTool(o) == none + [t] == [t];
    }
  }

  lemma ToolsCome(otools: seq<OTool>)
    ensures ToolsFrom(otools, if ToATools(otools) != [] then Some(ToATools(otools)) else None)
  {
    forall o ensures |OneTool(o)| == if HasDefinition(o) then 1 else 0 { OneToolIs(o); }
    var at := FlatMapPlaces(OneTool, HasDefinition, otools);
    ToolsOneByOne(otools);
    var tools := ToATools(otools);
    forall j | 0 <= j < |at| ensures DefinedBy(tools[j], otools[at[j]]) {
      OneToolIs(otools[at[j]]);
      assert OneTool(otools[at[j]]) == [tools[j]];
    }
    assert DefinedAt(tools, otools, at);
  }

  /** Every request, whatever it holds: the messages come one by one, in order, from the request's turns, a
      maximal run of tool messages at a time; the prompt is the last system text; limits and tools as they were. */
  lemma EverythingComesAcross(c: Codec, o: ORequest) returns (parts: seq<seq<OMessage>>)
    ensures var r := ToAnthropic(c, o);
            var os := o.messages.UnwrapOr([]);
            && r.messages.Some? && AllComeFrom(c, parts, r.messages.value) && Concat(parts) == Turns(os)
            && PromptFrom(os, r.system)
            && ToolsFrom(o.tools.UnwrapOr([]), r.tools)
            && r.model == o.model && r.stream == Some(true)
            && r.maxTokens == o.maxTokens && r.temperature == o.temperature && r.other == map[]
  {
    var os := o.messages.UnwrapOr([]);
    var parts0, run := StepsCome(c, os);
    FlushComes(c, StepMessages(c, START, os), parts0, run);
    parts := WithRun(parts0, run);
    SystemComes(c, os);
    ToolsCome(o.tools.UnwrapOr([]));
  }
}
