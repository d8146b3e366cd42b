/** The two request translators of src/transform.rs: Anthropic Messages bodies to OpenAI chat
    completions bodies and back.

    A JSON object is the record of the outcome of each lookup the code makes on it, and of the `other` fields
    that it never looks up and so never carries over. Constant fields that nothing reads
    (`"type": "function"`) are not kept. Text is one byte per character. */
module Requests {
  import opened Wrappers
  import opened Lists
  import opened Text

  datatype Json =
    | Null
    | Bool(b: bool)
    | Number(digits: string)
    | String(s: string)
    | Array(items: seq<Json>)
    | Object(fields: map<string, Json>)

  /** JSON printing and parsing, supplied by serde. */
  datatype Codec = Codec(encode: Json -> string, decode: string -> Option<Json>)

  ghost predicate Lawful(c: Codec)
  {
    forall j :: c.decode(c.encode(j)) == Some(j)
  }

  const EMPTY_OBJECT := Object(map[])

  type Fields = map<string, Json>

  datatype Role = User | Assistant | System | Tool | OtherRole(name: string)

  // ----- Anthropic bodies -----

  datatype BlockKind = TextKind | ToolUseKind | ToolResultKind | ThinkingKind | OtherKind

  datatype ResultContent = NoResult | ResultText(s: string) | ResultParts(texts: seq<Option<string>>) | OtherResult

  datatype Block = Block(
    kind: BlockKind,
    text: Option<string>,
    id: Option<string>,
    name: Option<string>,
    input: Option<Json>,
    toolUseId: Option<string>,
    content: ResultContent,
    other: Fields := map[])

  datatype Content = NoContent | Text(s: string) | Blocks(bs: seq<Block>) | OtherContent

  datatype AMessage = AMessage(role: Option<Role>, content: Content, other: Fields := map[])

  datatype Prompt = NoPrompt | PromptText(s: string) | PromptParts(texts: seq<Option<string>>) | OtherPrompt

  datatype ATool = ATool(
    name: Option<string>, description: Option<string>, inputSchema: Option<Json>, other: Fields := map[])

  datatype ARequest = ARequest(
    model: Option<string>,
    stream: Option<bool>,
    system: Prompt,
    messages: Option<seq<AMessage>>,
    maxTokens: Option<nat>,
    temperature: Option<real>,
    tools: Option<seq<ATool>>,
    other: Fields := map[])

  function TextBlock(s: string): Block
  {
    Block(TextKind, Some(s), None, None, None, None, NoResult)
  }

  function ToolUse(id: string, name: string, input: Json): Block
  {
    Block(ToolUseKind, None, Some(id), Some(name), Some(input), None, NoResult)
  }

  function ToolResult(id: string, text: string): Block
  {
    Block(ToolResultKind, None, None, None, None, Some(id), ResultText(text))
  }

  // ----- OpenAI bodies -----

  datatype OContent = NoOContent | NullContent | OText(s: string) | OtherOContent {
    function AsStr(): Option<string>
    {
      if OText? then Some(s) else None
    }
  }

  datatype OFunction = OFunction(name: Option<string>, arguments: Option<string>, other: Fields := map[])

  datatype OCall = OCall(id: Option<string>, func: Option<OFunction>, other: Fields := map[])

  datatype OMessage = OMessage(
    role: Option<Role>, content: OContent, toolCalls: Option<seq<OCall>>, toolCallId: Option<string>,
    other: Fields := map[])

  datatype OToolFunction = OToolFunction(
    name: Option<string>, description: Option<string>, parameters: Option<Json>, other: Fields := map[])

  datatype OTool = OTool(func: Option<OToolFunction>, other: Fields := map[])

  datatype ORequest = ORequest(
    model: Option<string>,
    stream: Option<bool>,
    messages: Option<seq<OMessage>>,
    maxTokens: Option<nat>,
    temperature: Option<real>,
    tools: Option<seq<OTool>>,
    other: Fields := map[])

  function Plain(role: Role, text: string): OMessage
  {
    OMessage(Some(role), OText(text), None, None)
  }

  function ToolMessage(id: string, text: string): OMessage
  {
    OMessage(Some(Tool), OText(text), None, Some(id))
  }

  // ----- Anthropic to OpenAI, as functions -----

  function IfPresent(text: Option<string>): seq<string>
  {
    if text.Some? then [text.value] else []
  }

  function Present(texts: seq<Option<string>>): seq<string>
  {
    FlatMap(IfPresent, texts)
  }

  function ResultString(c: ResultContent): string
  {
    match c
    case ResultText(s) => s
    case ResultParts(texts) => Join(Present(texts), "\n")
    case _ => ""
  }

  function TextPart(b: Block): seq<string>
  {
    if (b.kind.TextKind? || b.kind.OtherKind?) && b.text.Some? then [b.text.value] else []
  }

  function TextParts(blocks: seq<Block>): seq<string>
  {
    FlatMap(TextPart, blocks)
  }

  function ToCall(c: Codec, b: Block): OCall
  {
    OCall(Some(b.id.UnwrapOr("")),
          Some(OFunction(Some(b.name.UnwrapOr("")), Some(c.encode(b.input.UnwrapOr(EMPTY_OBJECT))))))
  }

  function ToolCalls(c: Codec, blocks: seq<Block>): seq<OCall>
  {
    if blocks == [] then []
    else
      var b := blocks[|blocks| - 1];
      ToolCalls(c, blocks[..|blocks| - 1]) + if b.kind.ToolUseKind? then [ToCall(c, b)] else []
  }

  function ResultPair(b: Block): seq<(string, string)>
  {
    if b.kind.ToolResultKind? then [(b.toolUseId.UnwrapOr(""), ResultString(b.content))] else []
  }

  function ToolResults(blocks: seq<Block>): seq<(string, string)>
  {
    FlatMap(ResultPair, blocks)
  }

  function ToolMessages(results: seq<(string, string)>): seq<OMessage>
  {
    if results == [] then []
    else
      var r := results[|results| - 1];
      ToolMessages(results[..|results| - 1]) + [ToolMessage(r.0, r.1)]
  }

  function AssistantMessage(texts: seq<string>, calls: seq<OCall>): OMessage
  {
    OMessage(Some(Assistant),
             if texts != [] then OText(Join(texts, "\n")) else if calls != [] then NullContent else NoOContent,
             if calls != [] then Some(calls) else None,
             None)
  }

  function ConvertBlocks(c: Codec, role: Role, blocks: seq<Block>): seq<OMessage>
  {
    var texts, calls, results := TextParts(blocks), ToolCalls(c, blocks), ToolResults(blocks);
    if role == Assistant then [AssistantMessage(texts, calls)]
    else if results != [] then
      (if texts != [] then [Plain(User, Join(texts, "\n"))] else []) + ToolMessages(results)
    else [Plain(role, Join(texts, "\n"))]
  }

  function ConvertMessage(c: Codec, m: AMessage): seq<OMessage>
  {
    var role := m.role.UnwrapOr(User);
    match m.content
    case Text(s) => [Plain(role, s)]
    case Blocks(bs) => ConvertBlocks(c, role, bs)
    case _ => [Plain(role, "")]
  }

  function ConvertMessages(c: Codec, ms: seq<AMessage>): seq<OMessage>
  {
    if ms == [] then [] else ConvertMessages(c, ms[..|ms| - 1]) + ConvertMessage(c, ms[|ms| - 1])
  }

  function PromptString(p: Prompt): string
  {
    match p
    case PromptText(s) => s
    case PromptParts(texts) => Join(Present(texts), "\n\n")
    case _ => ""
  }

  function SystemMessages(p: Prompt): seq<OMessage>
  {
    if PromptString(p) == "" then [] else [Plain(System, PromptString(p))]
  }

  function ToOTool(t: ATool): OTool
  {
    var name := t.name.UnwrapOr("");
    OTool(Some(OToolFunction(Some(if |name| > 64 then name[..64] else name),
                             Some(t.description.UnwrapOr("")),
                             Some(t.inputSchema.UnwrapOr(EMPTY_OBJECT)))))
  }

  function ToOTools(ts: seq<ATool>): seq<OTool>
  {
    seq(|ts|, i requires 0 <= i < |ts| => ToOTool(ts[i]))
  }

  function ToOpenAI(c: Codec, body: ARequest, model: string): ORequest
  {
    ORequest(Some(model), Some(true),
             Some(SystemMessages(body.system) + ConvertMessages(c, body.messages.UnwrapOr([]))),
             body.maxTokens,
             body.temperature,
             if body.tools.Some? && body.tools.value != [] then Some(ToOTools(body.tools.value)) else None)
  }

  // ----- OpenAI to Anthropic, as functions -----

  /** The translator's locals: the last system text, the messages so far, tool results not yet flushed. */
  datatype Progress = Progress(system: Option<string>, messages: seq<AMessage>, pending: seq<Block>)

  function Flush(pending: seq<Block>): seq<AMessage>
  {
    if pending == [] then [] else [AMessage(Some(User), Blocks(pending))]
  }

  function ToUse(c: Codec, call: OCall): seq<Block>
  {
    if call.func.None? then []
    else
      var f := call.func.value;
      [ToolUse(call.id.UnwrapOr(""), f.name.UnwrapOr(""), c.decode(f.arguments.UnwrapOr("{}")).UnwrapOr(EMPTY_OBJECT))]
  }

  function ToUses(c: Codec, calls: seq<OCall>): seq<Block>
  {
    if calls == [] then [] else ToUses(c, calls[..|calls| - 1]) + ToUse(c, calls[|calls| - 1])
  }

  function AssistantBlocks(c: Codec, m: OMessage): seq<Block>
  {
    var text := m.content.AsStr().UnwrapOr("");
    var blocks := (if text != "" then [TextBlock(text)] else []) + ToUses(c, m.toolCalls.UnwrapOr([]));
    if blocks == [] then [TextBlock("")] else blocks
  }

  function StepMessage(c: Codec, p: Progress, m: OMessage): Progress
  {
    var role := m.role.UnwrapOr(User);
    var text := m.content.AsStr().UnwrapOr("");
    match role
    case System => p.(system := Some(text))
    case Tool => p.(pending := p.pending + [ToolResult(m.toolCallId.UnwrapOr(""), text)])
    case Assistant =>
      Progress(p.system, p.messages + Flush(p.pending) + [AMessage(Some(Assistant), Blocks(AssistantBlocks(c, m)))], [])
    case _ =>
      Progress(p.system, p.messages + Flush(p.pending) + [AMessage(Some(User), Blocks([TextBlock(text)]))], [])
  }

  function StepMessages(c: Codec, p: Progress, ms: seq<OMessage>): Progress
  {
    if ms == [] then p else StepMessage(c, StepMessages(c, p, ms[..|ms| - 1]), ms[|ms| - 1])
  }

  const START := Progress(None, [], [])

  function Finished(p: Progress): seq<AMessage>
  {
    p.messages + Flush(p.pending)
  }

  function ToATools(ts: seq<OTool>): seq<ATool>
  {
    if ts == [] then []
    else
      var f := ts[|ts| - 1].func;
      ToATools(ts[..|ts| - 1]) +
      if f.None? then []
      else [ATool(Some(f.value.name.UnwrapOr("")), Some(f.value.description.UnwrapOr("")),
                  Some(f.value.parameters.UnwrapOr(EMPTY_OBJECT)))]
  }

  function ToAnthropic(c: Codec, body: ORequest): ARequest
  {
    var p := StepMessages(c, START, body.messages.UnwrapOr([]));
    var tools := ToATools(body.tools.UnwrapOr([]));
    ARequest(body.model, Some(true),
             if p.system.Some? then PromptText(p.system.value) else NoPrompt,
             Some(Finished(p)),
             body.maxTokens,
             body.temperature,
             if tools != [] then Some(tools) else None)
  }

  // ----- the translators as the code runs them -----

  method JoinParts(texts: seq<Option<string>>, sep: string) returns (r: string)
    ensures r == Join(Present(texts), sep)
  {
    var present := [];
    for i := 0 to |texts|
      invariant present == Present(texts[..i])
    {
      assert texts[..i + 1][..i] == texts[..i];
      if texts[i].Some? { present := present + [texts[i].value]; }
    }
    assert texts[..|texts|] == texts;
    r := JoinAll(present, sep);
  }

  /** The first loop of `convert_content_blocks`. */
  method SortBlocks(c: Codec, blocks: seq<Block>)
    returns (texts: seq<string>, calls: seq<OCall>, results: seq<(string, string)>)
    ensures texts == TextParts(blocks) && calls == ToolCalls(c, blocks) && results == ToolResults(blocks)
  {
    texts, calls, results := [], [], [];
    for i := 0 to |blocks|
      invariant texts == TextParts(blocks[..i]) && calls == ToolCalls(c, blocks[..i]) && results == ToolResults(blocks[..i])
    {
      assert blocks[..i + 1][..i] == blocks[..i];
      var b := blocks[i];
      match b.kind {
        case TextKind => if b.text.Some? { texts := texts + [b.text.value]; }
        case ToolUseKind => calls := calls + [ToCall(c, b)];
        case ToolResultKind =>
          var text := "";
          match b.content {
            case ResultText(s) => text := s;
            case ResultParts(parts) => text := JoinParts(parts, "\n");
            case NoResult =>
            case OtherResult =>
          }
          results := results + [(b.toolUseId.UnwrapOr(""), text)];
        case ThinkingKind =>
        case OtherKind => if b.text.Some? { texts := texts + [b.text.value]; }
      }
    }
    assert blocks[..|blocks|] == blocks;
  }

  method AssistantOut(texts: seq<string>, calls: seq<OCall>) returns (msg: OMessage)
    ensures msg == AssistantMessage(texts, calls)
  {
    msg := OMessage(Some(Assistant), NoOContent, None, None);
    if texts != [] {
      var joined := JoinAll(texts, "\n");
      msg := msg.(content := OText(joined));
    }
    if calls != [] {
      msg := msg.(toolCalls := Some(calls));
      if texts == [] { msg := msg.(content := NullContent); }
    }
  }

  method ResultsOut(results: seq<(string, string)>) returns (r: seq<OMessage>)
    ensures r == ToolMessages(results)
  {
    r := [];
    for i := 0 to |results|
      invariant r == ToolMessages(results[..i])
    {
      assert results[..i + 1][..i] == results[..i];
      r := r + [ToolMessage(results[i].0, results[i].1)];
    }
    assert results[..|results|] == results;
  }

  method ConvertContentBlocks(c: Codec, role: Role, blocks: seq<Block>, messages: seq<OMessage>)
    returns (r: seq<OMessage>)
    ensures r == messages + ConvertBlocks(c, role, blocks)
  {
    var texts, calls, results := SortBlocks(c, blocks);
    if role == Assistant {
      var msg := AssistantOut(texts, calls);
      return messages + [msg];
    }
    var joined := JoinAll(texts, "\n");
    if results != [] {
      var first := if texts != [] then [Plain(User, joined)] else [];
      var tools := ResultsOut(results);
      r := messages + (first + tools);
    } else {
      r := messages + [Plain(role, joined)];
    }
  }

  method AppendMessage(c: Codec, m: AMessage, messages: seq<OMessage>) returns (r: seq<OMessage>)
    ensures r == messages + ConvertMessage(c, m)
  {
    var role := m.role.UnwrapOr(User);
    match m.content {
      case Text(s) => r := messages + [Plain(role, s)];
      case Blocks(bs) => r := ConvertContentBlocks(c, role, bs, messages);
      case NoContent => r := messages + [Plain(role, "")];
      case OtherContent => r := messages + [Plain(role, "")];
    }
  }

  method ConvertHistory(c: Codec, ms: seq<AMessage>) returns (messages: seq<OMessage>)
    ensures messages == ConvertMessages(c, ms)
  {
    messages := [];
    for i := 0 to |ms|
      invariant messages == ConvertMessages(c, ms[..i])
    {
      assert ms[..i + 1][..i] == ms[..i];
      messages := AppendMessage(c, ms[i], messages);
    }
    assert ms[..|ms|] == ms;
  }

  method AnthropicToOpenAI(c: Codec, body: ARequest, model: string) returns (r: ORequest)
    ensures r == ToOpenAI(c, body, model)
  {
    var messages := [];
    var text := "";
    match body.system {
      case PromptText(s) => text := s;
      case PromptParts(texts) => text := JoinParts(texts, "\n\n");
      case NoPrompt =>
      case OtherPrompt =>
    }
    if text != "" { messages := [Plain(System, text)]; }
    var history := ConvertHistory(c, body.messages.UnwrapOr([]));
    messages := messages + history;
    r := ORequest(Some(model), Some(true), Some(messages), None, None, None);
    if body.maxTokens.Some? { r := r.(maxTokens := body.maxTokens); }
    if body.temperature.Some? { r := r.(temperature := body.temperature); }
    if body.tools.Some? {
      var tools := ToOTools(body.tools.value);
      if tools != [] { r := r.(tools := Some(tools)); }
      assert tools != [] <==> body.tools.value != [] by { assert |tools| == |body.tools.value|; }
    }
  }

  method AssistantContent(c: Codec, m: OMessage) returns (blocks: seq<Block>)
    ensures blocks == AssistantBlocks(c, m)
  {
    blocks := [];
    if m.content.OText? && m.content.s != "" { blocks := [TextBlock(m.content.s)]; }
    ghost var before := blocks;
    var calls := m.toolCalls.UnwrapOr([]);
    NoMore(before);
    for i := 0 to |calls|
      invariant blocks == before + ToUses(c, calls[..i])
    {
      assert calls[..i + 1][..i] == calls[..i];
      Regroup(before, ToUses(c, calls[..i]), ToUse(c, calls[i]));
      NoMore(before + ToUses(c, calls[..i]));
      if calls[i].func.Some? { blocks := blocks + ToUse(c, calls[i]); }
    }
    Whole(calls);
    if blocks == [] { blocks := [TextBlock("")]; }
  }

  /** The message loop of `openai_to_anthropic`; results are drained into one user message when any
      message other than a tool or system message follows them. */
  method GroupMessages(c: Codec, ms: seq<OMessage>) returns (system: Option<string>, messages: seq<AMessage>)
    ensures var p := StepMessages(c, START, ms); system == p.system && messages == Finished(p)
  {
    system, messages := None, [];
    var pending: seq<Block> := [];
    for i := 0 to |ms|
      invariant Progress(system, messages, pending) == StepMessages(c, START, ms[..i])
    {
      assert ms[..i + 1][..i] == ms[..i];
      var m := ms[i];
      var role := m.role.UnwrapOr(User);
      if role == System {
        system := Some(m.content.AsStr().UnwrapOr(""));
      } else if role == Tool {
        pending := pending + [ToolResult(m.toolCallId.UnwrapOr(""), m.content.AsStr().UnwrapOr(""))];
      } else {
        if pending != [] {
          messages := messages + [AMessage(Some(User), Blocks(pending))];
          pending := [];
        }
        if role == Assistant {
          var blocks := AssistantContent(c, m);
          messages := messages + [AMessage(Some(Assistant), Blocks(blocks))];
        } else {
          messages := messages + [AMessage(Some(User), Blocks([TextBlock(m.content.AsStr().UnwrapOr(""))]))];
        }
      }
    }
    assert ms[..|ms|] == ms;
    if pending != [] { messages := messages + [AMessage(Some(User), Blocks(pending))]; }
  }

  method OpenAIToAnthropic(c: Codec, body: ORequest) returns (r: ARequest)
    ensures r == ToAnthropic(c, body)
  {
    var system, messages := GroupMessages(c, body.messages.UnwrapOr([]));
    r := ARequest(None, Some(true), NoPrompt, Some(messages), None, None, None);
    if body.model.Some? { r := r.(model := body.model); }
    if system.Some? { r := r.(system := PromptText(system.value)); }
    if body.maxTokens.Some? { r := r.(maxTokens := body.maxTokens); }
    if body.temperature.Some? { r := r.(temperature := body.temperature); }
    var tools := [];
    var ts := body.tools.UnwrapOr([]);
    for i := 0 to |ts|
      invariant tools == ToATools(ts[..i])
    {
      assert ts[..i + 1][..i] == ts[..i];
      if ts[i].func.Some? {
        var f := ts[i].func.value;
        tools := tools + [ATool(Some(f.name.UnwrapOr("")), Some(f.description.UnwrapOr("")),
                                Some(f.parameters.UnwrapOr(EMPTY_OBJECT)))];
      }
    }
    assert ts[..|ts|] == ts;
    if tools != [] { r := r.(tools := Some(tools)); }
  }
}
