/** What an Anthropic request says, all of it, and where that stands in its OpenAI form
    (src/transform.rs:10-174). Nothing here is said in terms of the translator. */
module ToOpenAIContents {
  import opened Wrappers
  import opened Lists
  import opened Text
  import opened TextLayout
  import opened Requests

  // ----- texts -----

  predicate IsThere(text: Option<string>)
  {
    text.Some?
  }

  function Texts(parts: seq<Option<string>>, at: seq<nat>): seq<string>
    requires forall j :: 0 <= j < |at| ==> at[j] < |parts|
  {
    seq(|at|, j requires 0 <= j < |at| => parts[at[j]].UnwrapOr(""))
  }

  /** The text is the parts that are there, in order, with the separator between them. */
  ghost predicate SaysParts(text: string, parts: seq<Option<string>>, sep: string)
  {
    exists at :: Places(IsThere, parts, at) && LaidOut(text, Texts(parts, at), sep)
  }

  lemma PresentSays(parts: seq<Option<string>>, sep: string)
    ensures SaysParts(Join(Present(parts), sep), parts, sep)
  {
    var at := FlatMapPlaces(IfPresent, IsThere, parts);
    assert Present(parts) == Texts(parts, at) by {
      forall j | 0 <= j < |at| ensures Present(parts)[j] == Texts(parts, at)[j] {
        assert IfPresent(parts[at[j]]) == [Present(parts)[j]];
      }
    }
    JoinLaysOut(Present(parts), sep);
  }

  /** The text of a system prompt. */
  ghost predicate PromptSays(prompt: Prompt, text: string)
  {
    match prompt
    case PromptText(s) => text == s
    case PromptParts(parts) => SaysParts(text, parts, "\n\n")
    case _ => text == ""
  }

  /** The text of a tool result. */
  ghost predicate ResultSays(content: ResultContent, text: string)
  {
    match content
    case ResultText(s) => text == s
    case ResultParts(parts) => SaysParts(text, parts, "\n")
    case _ => text == ""
  }

  predicate HasText(b: Block)
  {
    b.text.Some? && b.kind !in {ToolUseKind, ToolResultKind, ThinkingKind}
  }

  function TextsOf(bs: seq<Block>, at: seq<nat>): seq<string>
    requires forall j :: 0 <= j < |at| ==> at[j] < |bs|
  {
    seq(|at|, j requires 0 <= j < |at| => bs[at[j]].text.UnwrapOr(""))
  }

  /** The text is what the blocks say, one line break between each and the next. */
  ghost predicate SaysBlocks(text: string, bs: seq<Block>)
  {
    exists at :: Places(HasText, bs, at) && LaidOut(text, TextsOf(bs, at), "\n")
  }

  predicate NoText(bs: seq<Block>)
  {
    forall i :: 0 <= i < |bs| ==> !HasText(bs[i])
  }

  lemma TextPartsSay(bs: seq<Block>)
    ensures SaysBlocks(Join(TextParts(bs), "\n"), bs)
    ensures TextParts(bs) == [] <==> NoText(bs)
  {
    var at := FlatMapPlaces(TextPart, HasText, bs);
    assert TextParts(bs) == TextsOf(bs, at) by {
      forall j | 0 <= j < |at| ensures TextParts(bs)[j] == TextsOf(bs, at)[j] {
        assert TextPart(bs[at[j]]) == [TextParts(bs)[j]];
      }
    }
    JoinLaysOut(TextParts(bs), "\n");
    if TextParts(bs) != [] { assert HasText(bs[at[0]]); }
  }

  // ----- tool calls and tool results -----

  predicate IsUse(b: Block)
  {
    b.kind == ToolUseKind
  }

  predicate IsResult(b: Block)
  {
    b.kind == ToolResultKind
  }

  /** A call carries the block's id, name and printed input. */
  predicate CallFor(c: Codec, call: OCall, b: Block)
  {
    && call.id == Some(b.id.UnwrapOr("")) && call.func.Some?
    && call.func.value.name == Some(b.name.UnwrapOr(""))
    && call.func.value.arguments == Some(c.encode(b.input.UnwrapOr(Object(map[]))))
    && call.other == map[] && call.func.value.other == map[]
  }

  ghost predicate CallsFor(c: Codec, calls: seq<OCall>, bs: seq<Block>)
  {
    exists at :: Places(IsUse, bs, at) && CallsAt(c, calls, bs, at)
  }

  ghost predicate CallsAt(c: Codec, calls: seq<OCall>, bs: seq<Block>, at: seq<nat>)
  {
    |calls| == |at| && forall j :: 0 <= j < |at| && at[j] < |bs| ==> CallFor(c, calls[j], bs[at[j]])
  }

  function UseCall(c: Codec): Block -> seq<OCall>
  {
    (b: Block) => if b.kind.ToolUseKind? then [ToCall(c, b)] else []
  }

  lemma {:induction false} ToolCallsAreCalls(c: Codec, bs: seq<Block>)
    ensures ToolCalls(c, bs) == FlatMap(UseCall(c), bs)
  {
    if bs != [] { ToolCallsAreCalls(c, bs[..|bs| - 1]); }
  }

  lemma ToolCallsFor(c: Codec, bs: seq<Block>)
    ensures CallsFor(c, ToolCalls(c, bs), bs)
  {
    var at := FlatMapPlaces(UseCall(c), IsUse, bs);
    ToolCallsAreCalls(c, bs);
    forall j | 0 <= j < |at| ensures CallFor(c, ToolCalls(c, bs)[j], bs[at[j]]) {
      assert UseCall(c)(bs[at[j]]) == [ToolCalls(c, bs)[j]];
    }
    assert CallsAt(c, ToolCalls(c, bs), bs, at);
  }

  /** A tool message answers for one result. */
  ghost predicate Answers(o: OMessage, b: Block)
  {
    && o.role == Some(Tool) && o.toolCallId == Some(b.toolUseId.UnwrapOr("")) && o.toolCalls.None? && o.other == map[]
    && o.content.OText? && ResultSays(b.content, o.content.s)
  }

  ghost predicate AnswersAt(os: seq<OMessage>, bs: seq<Block>, at: seq<nat>)
  {
    |os| == |at| && forall j :: 0 <= j < |at| && at[j] < |bs| ==> Answers(os[j], bs[at[j]])
  }

  ghost predicate AnswerFor(os: seq<OMessage>, bs: seq<Block>)
  {
    exists at :: Places(IsResult, bs, at) && AnswersAt(os, bs, at)
  }

  predicate NoResults(bs: seq<Block>)
  {
    forall i :: 0 <= i < |bs| ==> !IsResult(bs[i])
  }

  lemma ResultPairSays(b: Block)
    requires IsResult(b)
    ensures |ResultPair(b)| == 1 && ResultPair(b)[0].0 == b.toolUseId.UnwrapOr("")
    ensures ResultSays(b.content, ResultPair(b)[0].1)
  {
    if b.content.ResultParts? { PresentSays(b.content.texts, "\n"); }
  }

  lemma {:induction false} ToolMessageAt(rs: seq<(string, string)>, j: nat)
    requires j < |rs|
    ensures |ToolMessages(rs)| == |rs| && ToolMessages(rs)[j] == ToolMessage(rs[j].0, rs[j].1)
  {
    var k := |rs| - 1;
    if j < k { ToolMessageAt(rs[..k], j); } else if k > 0 { ToolMessageAt(rs[..k], 0); }
  }

  lemma ToolMessagesAnswer(bs: seq<Block>)
    ensures AnswerFor(ToolMessages(ToolResults(bs)), bs)
    ensures ToolResults(bs) == [] <==> NoResults(bs)
  {
    var at := FlatMapPlaces(ResultPair, IsResult, bs);
    var (rs, os) := (ToolResults(bs), ToolMessages(ToolResults(bs)));
    if rs != [] { ToolMessageAt(rs, 0); assert IsResult(bs[at[0]]); }
    forall j | 0 <= j < |at| ensures Answers(os[j], bs[at[j]]) {
      ToolMessageAt(rs, j);
      ResultPairSays(bs[at[j]]);
      assert ResultPair(bs[at[j]]) == [rs[j]];
    }
    assert AnswersAt(os, bs, at);
  }

  // ----- one message -----

  /** A message that is text and nothing else. */
  predicate IsTextOf(o: OMessage, role: Role)
  {
    o.role == Some(role) && o.content.OText? && o.toolCalls.None? && o.toolCallId.None? && o.other == map[]
  }

  /** An assistant message: its texts joined, or no content; its tool uses as calls. */
  ghost predicate AssistantSays(c: Codec, bs: seq<Block>, o: OMessage)
  {
    && o.role == Some(Assistant) && o.toolCallId.None? && o.other == map[]
    && (!NoText(bs) ==> o.content.OText? && SaysBlocks(o.content.s, bs))
    && (NoText(bs) ==> o.content == if o.toolCalls.Some? then NullContent else NoOContent)
    && (o.toolCalls.Some? ==> o.toolCalls.value != [])
    && CallsFor(c, o.toolCalls.UnwrapOr([]), bs)
  }

  /** A message with tool results: its texts first, if it has any, then one tool message for each result. */
  ghost predicate ResultsSay(bs: seq<Block>, os: seq<OMessage>)
  {
    if NoText(bs) then AnswerFor(os, bs)
    else
      && os != [] && IsTextOf(os[0], User) && SaysBlocks(os[0].content.s, bs)
      && AnswerFor(os[1..], bs)
  }

  /** Everything that a message becomes. */
  ghost predicate SaysAll(c: Codec, m: AMessage, os: seq<OMessage>)
  {
    var role := m.role.UnwrapOr(User);
    match m.content
    case Text(s) => |os| == 1 && IsTextOf(os[0], role) && os[0].content.s == s
    case Blocks(bs) =>
      if role == Assistant then |os| == 1 && AssistantSays(c, bs, os[0])
      else if !NoResults(bs) then ResultsSay(bs, os)
      else |os| == 1 && IsTextOf(os[0], role) && SaysBlocks(os[0].content.s, bs)
    case _ => |os| == 1 && IsTextOf(os[0], role) && os[0].content.s == ""
  }

  lemma AssistantSaysAll(c: Codec, bs: seq<Block>)
    ensures AssistantSays(c, bs, AssistantMessage(TextParts(bs), ToolCalls(c, bs)))
  {
    TextPartsSay(bs);
    ToolCallsFor(c, bs);
  }

  lemma ResultsSayAll(bs: seq<Block>, first: seq<OMessage>, rest: seq<OMessage>)
    requires first == if TextParts(bs) != [] then [Plain(User, Join(TextParts(bs), "\n"))] else []
    requires rest == ToolMessages(ToolResults(bs))
    ensures ResultsSay(bs, first + rest)
  {
    TextPartsSay(bs);
    ToolMessagesAnswer(bs);
    if first == [] {
      OnlyResults(bs, first, rest);
    } else {
      TextThenResults(bs, first[0], rest);
    }
  }

  lemma OnlyResults(bs: seq<Block>, first: seq<OMessage>, rest: seq<OMessage>)
    requires NoText(bs) && first == [] && AnswerFor(rest, bs)
    ensures ResultsSay(bs, first + rest)
  {
    assert first + rest == rest;
  }

  lemma TextThenResults(bs: seq<Block>, o: OMessage, rest: seq<OMessage>)
    requires !NoText(bs) && IsTextOf(o, User) && SaysBlocks(o.content.s, bs) && AnswerFor(rest, bs)
    ensures ResultsSay(bs, [o] + rest)
  {
    HeadAndRest(o, rest);
  }

  lemma MessageSaysAll(c: Codec, m: AMessage)
    ensures SaysAll(c, m, ConvertMessage(c, m))
  {
    if m.content.Blocks? {
      var bs := m.content.bs;
      ToolMessagesAnswer(bs);
      AssistantSaysAll(c, bs);
      TextPartsSay(bs);
      ResultsSayAll(bs, if TextParts(bs) != [] then [Plain(User, Join(TextParts(bs), "\n"))] else [],
                    ToolMessages(ToolResults(bs)));
    }
  }

  // ----- the request -----

  /** One group of messages for each message, in order. */
  ghost predicate GroupsSay(c: Codec, ms: seq<AMessage>, groups: seq<seq<OMessage>>)
  {
    |groups| == |ms| && forall i :: 0 <= i < |ms| ==> SaysAll(c, ms[i], groups[i])
  }

  lemma {:induction false} MessagesSayAll(c: Codec, ms: seq<AMessage>) returns (groups: seq<seq<OMessage>>)
    ensures GroupsSay(c, ms, groups) && ConvertMessages(c, ms) == Concat(groups)
  {
    if ms == [] {
      groups := [];
    } else {
      var k := |ms| - 1;
      var before := MessagesSayAll(c, ms[..k]);
      MessageSaysAll(c, ms[k]);
      ConcatMore(before, ConvertMessage(c, ms[k]));
      groups := before + [ConvertMessage(c, ms[k])];
      OneMoreGroup(c, ms, before, ConvertMessage(c, ms[k]));
    }
  }

  lemma OneMoreGroup(c: Codec, ms: seq<AMessage>, before: seq<seq<OMessage>>, group: seq<OMessage>)
    requires ms != [] && GroupsSay(c, ms[..|ms| - 1], before) && SaysAll(c, ms[|ms| - 1], group)
    ensures GroupsSay(c, ms, before + [group])
  {
    var k := |ms| - 1;
    forall i | 0 <= i < |ms| ensures SaysAll(c, ms[i], (before + [group])[i]) {
      if i < k { assert ms[..k][i] == ms[i]; }
    }
  }

  /** The system prompt as a message, if it says anything. */
  ghost predicate SystemSays(prompt: Prompt, os: seq<OMessage>)
  {
    if os == [] then PromptSays(prompt, "")
    else |os| == 1 && IsTextOf(os[0], System) && os[0].content.s != "" && PromptSays(prompt, os[0].content.s)
  }

  lemma SystemSaysAll(prompt: Prompt)
    ensures SystemSays(prompt, SystemMessages(prompt))
  {
    if prompt.PromptParts? { PresentSays(prompt.texts, "\n\n"); }
  }

  /** A tool definition, its name cut to 64 characters. */
  predicate Defines(t: ATool, o: OTool)
  {
    var name := t.name.UnwrapOr("");
    && o.func.Some?
    && o.func.value.name == Some(if |name| <= 64 then name else name[..64])
    && o.func.value.description == Some(t.description.UnwrapOr(""))
    && o.func.value.parameters == Some(t.inputSchema.UnwrapOr(Object(map[])))
    && o.other == map[] && o.func.value.other == map[]
  }

  predicate DefinesAll(tools: Option<seq<ATool>>, otools: Option<seq<OTool>>)
  {
    if otools.None? then tools.UnwrapOr([]) == []
    else
      && tools.Some? && |otools.value| == |tools.value| > 0
      && forall j :: 0 <= j < |tools.value| ==> Defines(tools.value[j], otools.value[j])
  }

  /** Every request, whatever it holds: the system prompt's text comes first, in a system message, if it is not
      empty; then what every message says, message by message; limits and tools as they were. */
  lemma NothingSaidIsLost(c: Codec, r: ARequest, model: string)
    returns (system: seq<OMessage>, groups: seq<seq<OMessage>>)
    ensures var o := ToOpenAI(c, r, model);
            && o.messages == Some(system + Concat(groups))
            && SystemSays(r.system, system)
            && GroupsSay(c, r.messages.UnwrapOr([]), groups)
            && o.model == Some(model) && o.stream == Some(true)
            && o.maxTokens == r.maxTokens && o.temperature == r.temperature && o.other == map[]
            && DefinesAll(r.tools, o.tools)
  {
    system := SystemMessages(r.system);
    SystemSaysAll(r.system);
    groups := MessagesSayAll(c, r.messages.UnwrapOr([]));
  }

  // ----- two consequences -----

  /** A system prompt given as parts: part i stands in the first message at its own offset. */
  lemma SystemPartsStand(c: Codec, r: ARequest, model: string, parts: seq<string>)
    requires r.system.PromptParts? && r.system.texts == seq(|parts|, i requires 0 <= i < |parts| => Some(parts[i]))
    requires exists i :: 0 <= i < |parts| && parts[i] != ""
    ensures var os := ToOpenAI(c, r, model).messages.value;
            && os != [] && IsTextOf(os[0], System)
            && LaidOut(os[0].content.s, parts, "\n\n")
  {
    var system, groups := NothingSaidIsLost(c, r, model);
    PartsAreLaidOut(r.system.texts, parts, if system == [] then "" else system[0].content.s);
  }

  lemma PartsAreLaidOut(texts: seq<Option<string>>, parts: seq<string>, text: string)
    requires texts == seq(|parts|, i requires 0 <= i < |parts| => Some(parts[i]))
    requires SaysParts(text, texts, "\n\n") && exists i :: 0 <= i < |parts| && parts[i] != ""
    ensures LaidOut(text, parts, "\n\n") && text != ""
  {
    var at :| Places(IsThere, texts, at) && LaidOut(text, Texts(texts, at), "\n\n");
    AllThere(|texts|, at);
    assert Texts(texts, at) == parts;
    var i :| 0 <= i < |parts| && parts[i] != "";
    assert PartAt(text, parts, "\n\n", i);
  }

  lemma {:induction false} AllThere(n: nat, at: seq<nat>)
    requires forall i, j :: 0 <= i < j < |at| ==> at[i] < at[j]
    requires forall j :: 0 <= j < |at| ==> at[j] < n
    requires forall i: nat :: i < n ==> i in at
    ensures |at| == n && forall j :: 0 <= j < n ==> at[j] == j
  {
    if n > 0 {
      var k := |at| - 1;
      assert n - 1 in at;
      assert at[k] == n - 1;
      forall i: nat | i < n - 1 ensures i in at[..k] {
        assert i in at;
      }
      AllThere(n - 1, at[..k]);
    }
    assert at != [] ==> at[0] < n;
  }
}
