/** The two event-stream state machines of src/transform.rs.

    A JSON object is represented by the outcome of each lookup the code makes on it: a field that is
    missing or has the wrong type is `None`. Tag strings the code matches on (event, delta and block
    types) are enumerations with one constructor for everything else. Each machine's state carries
    a log of everything it has emitted so far. */
module Streams {
  import opened Wrappers
  import opened Lists

  // ----- OpenAI chunks -----

  datatype Func = Func(name: Option<string>, arguments: Option<string>)

  datatype Fragment = Fragment(index: Option<nat>, id: Option<string>, func: Option<Func>)

  datatype Delta = Delta(content: Option<string>, toolCalls: Option<seq<Fragment>>)

  datatype Choice = Choice(delta: Option<Delta>, finishReason: Option<string>)

  datatype Usage = Usage(promptTokens: Option<nat>, completionTokens: Option<nat>)

  datatype Chunk = Chunk(usage: Option<Usage>, choices: Option<seq<Choice>>)

  /** The text after `data: `. */
  datatype Line = Done | Malformed | Parsed(chunk: Chunk)

  // ----- Anthropic events -----

  datatype EventType =
    | MessageStartType | BlockStartType | BlockDeltaType | BlockStopType
    | MessageDeltaType | MessageStopType | OtherEvent

  datatype BlockType = TextBlock | ToolUseBlock | OtherBlock

  datatype DeltaType = TextDeltaType | InputJsonDeltaType | OtherDelta

  datatype ContentBlock = ContentBlock(kind: BlockType, id: Option<string>, name: Option<string>)

  datatype EventDelta = EventDelta(
    kind: DeltaType, text: Option<string>, partialJson: Option<string>, stopReason: Option<string>)

  datatype Payload = Payload(
    index: Option<nat>,
    inputTokens: Option<nat>,
    contentBlock: Option<ContentBlock>,
    delta: Option<EventDelta>,
    outputTokens: Option<nat>)

  const NO_PAYLOAD := Payload(None, None, None, None, None)

  datatype Event = Event(kind: EventType, payload: Payload)

  function MessageStart(inputTokens: nat): Event
  {
    Event(MessageStartType, NO_PAYLOAD.(inputTokens := Some(inputTokens)))
  }

  function TextStart(): Event
  {
    Event(BlockStartType, NO_PAYLOAD.(index := Some(0), contentBlock := Some(ContentBlock(TextBlock, None, None))))
  }

  function TextDelta(text: string): Event
  {
    Event(BlockDeltaType,
      NO_PAYLOAD.(index := Some(0), delta := Some(EventDelta(TextDeltaType, Some(text), None, None))))
  }

  function ToolStart(index: nat, id: string, name: string): Event
  {
    Event(BlockStartType,
      NO_PAYLOAD.(index := Some(index), contentBlock := Some(ContentBlock(ToolUseBlock, Some(id), Some(name)))))
  }

  function JsonDelta(index: nat, partial: string): Event
  {
    Event(BlockDeltaType,
      NO_PAYLOAD.(index := Some(index), delta := Some(EventDelta(InputJsonDeltaType, None, Some(partial), None))))
  }

  function BlockStop(index: nat): Event
  {
    Event(BlockStopType, NO_PAYLOAD.(index := Some(index)))
  }

  function MessageDelta(stopReason: string, outputTokens: nat): Event
  {
    Event(MessageDeltaType,
      NO_PAYLOAD.(delta := Some(EventDelta(OtherDelta, None, None, Some(stopReason))),
                 outputTokens := Some(outputTokens)))
  }

  const MESSAGE_STOP: Event := Event(MessageStopType, NO_PAYLOAD)

  // ----- stop reasons -----

  function StopReason(finish: string): string
  {
    match finish
    case "stop" => "end_turn"
    case "tool_calls" => "tool_use"
    case "length" => "max_tokens"
    case other => other
  }

  function FinishReason(stop: string): string
  {
    match stop
    case "end_turn" => "stop"
    case "tool_use" => "tool_calls"
    case "max_tokens" => "length"
    case other => other
  }

  // ----- OpenAI to Anthropic, as a function of the state -----

  datatype ToolCallState = ToolCallState(
    index: nat, id: string, name: string, arguments: string, blockStarted: bool)

  datatype OState = OState(
    started: bool,
    contentBlockOpen: bool,
    tools: seq<ToolCallState>,
    inputTokens: nat,
    outputTokens: nat,
    log: seq<Event>)

  const O_INITIAL := OState(false, false, [], 0, 0, [])

  function Emit(s: OState, e: Event): OState
  {
    s.(log := s.log + [e])
  }

  function Grow(tools: seq<ToolCallState>, size: nat): seq<ToolCallState>
    decreases size - |tools|
  {
    if |tools| >= size then tools
    else Grow(tools + [ToolCallState(|tools|, "", "", "", false)], size)
  }

  lemma {:induction false} GrowLength(tools: seq<ToolCallState>, size: nat)
    ensures |Grow(tools, size)| == if |tools| >= size then |tools| else size
    ensures tools <= Grow(tools, size)
    ensures forall i :: |tools| <= i < |Grow(tools, size)| ==> Grow(tools, size)[i] == ToolCallState(i, "", "", "", false)
    decreases size - |tools|
  {
    if |tools| < size {
      GrowLength(tools + [ToolCallState(|tools|, "", "", "", false)], size);
    }
  }

  function Slot(f: Fragment): nat
  {
    f.index.UnwrapOr(0)
  }

  function NameIn(f: Fragment): Option<string>
  {
    if f.func.Some? then f.func.value.name else None
  }

  function ArgumentsIn(f: Fragment): Option<string>
  {
    if f.func.Some? then f.func.value.arguments else None
  }

  function Absorb(t: ToolCallState, f: Fragment): ToolCallState
  {
    t.(id := f.id.UnwrapOr(t.id),
       name := NameIn(f).UnwrapOr(t.name),
       arguments := t.arguments + ArgumentsIn(f).UnwrapOr(""))
  }

  function CloseText(s: OState): OState
  {
    if s.contentBlockOpen then Emit(s.(contentBlockOpen := false), BlockStop(0)) else s
  }

  function StartTool(s: OState, idx: nat): OState
    requires idx < |s.tools|
  {
    var t := s.tools[idx];
    if t.blockStarted || t.name == "" then s
    else
      var s1 := CloseText(s);
      Emit(s1.(tools := s1.tools[idx := t.(blockStarted := true)]), ToolStart(idx + 1, t.id, t.name))
  }

  function StreamArguments(s: OState, idx: nat, args: Option<string>): OState
    requires idx < |s.tools|
  {
    if args.Some? && args.value != "" && s.tools[idx].blockStarted
    then Emit(s, JsonDelta(idx + 1, args.value)) else s
  }

  function WithFragment(s: OState, f: Fragment): (s': OState)
    ensures Slot(f) < |s'.tools|
  {
    var idx := Slot(f);
    GrowLength(s.tools, idx + 1);
    var tools := Grow(s.tools, idx + 1);
    s.(tools := tools[idx := Absorb(tools[idx], f)])
  }

  function StepFragment(s: OState, f: Fragment): OState
  {
    StreamArguments(StartTool(WithFragment(s, f), Slot(f)), Slot(f), ArgumentsIn(f))
  }

  function StepFragments(s: OState, fs: seq<Fragment>): OState
  {
    if fs == [] then s else StepFragment(StepFragments(s, fs[..|fs| - 1]), fs[|fs| - 1])
  }

  lemma FragmentsNext(s: OState, fs: seq<Fragment>, i: nat)
    requires i < |fs|
    ensures StepFragments(s, fs[..i + 1]) == StepFragment(StepFragments(s, fs[..i]), fs[i])
  {
    assert fs[..i + 1][..i] == fs[..i];
  }

  function StepText(s: OState, content: Option<string>): OState
  {
    if content.None? || content.value == "" then s
    else
      var s1 := if s.contentBlockOpen then s else Emit(s.(contentBlockOpen := true), TextStart());
      Emit(s1, TextDelta(content.value))
  }

  function Stops(tools: seq<ToolCallState>): seq<Event>
  {
    if tools == [] then []
    else
      var t := tools[|tools| - 1];
      Stops(tools[..|tools| - 1]) + if t.blockStarted then [BlockStop(t.index + 1)] else []
  }

  function CloseAll(s: OState): OState
  {
    var s1 := CloseText(s);
    s1.(log := s1.log + Stops(s1.tools))
  }

  function StepFinish(s: OState, finish: Option<string>): OState
  {
    if finish.None? then s
    else Emit(CloseAll(s), MessageDelta(StopReason(finish.value), s.outputTokens))
  }

  function StepDelta(s: OState, delta: Delta): OState
  {
    StepFragments(StepText(s, delta.content), delta.toolCalls.UnwrapOr([]))
  }

  function StepChoice(s: OState, c: Choice): OState
  {
    if c.delta.None? then s else StepFinish(StepDelta(s, c.delta.value), c.finishReason)
  }

  function StepChoices(s: OState, cs: seq<Choice>): OState
  {
    if cs == [] then s else StepChoice(StepChoices(s, cs[..|cs| - 1]), cs[|cs| - 1])
  }

  function StepUsage(s: OState, usage: Option<Usage>): OState
  {
    if usage.None? then s
    else s.(inputTokens := usage.value.promptTokens.UnwrapOr(s.inputTokens),
            outputTokens := usage.value.completionTokens.UnwrapOr(s.outputTokens))
  }

  function StepStart(s: OState): OState
  {
    if s.started then s else Emit(s.(started := true), MessageStart(s.inputTokens))
  }

  function StepLine(s: OState, line: Line): OState
  {
    match line
    case Done => Emit(Emit(CloseAll(s), MessageDelta("end_turn", s.outputTokens)), MESSAGE_STOP)
    case Malformed => s
    case Parsed(chunk) => StepChoices(StepStart(StepUsage(s, chunk.usage)), chunk.choices.UnwrapOr([]))
  }

  function RunLines(lines: seq<Line>): OState
  {
    if lines == [] then O_INITIAL else StepLine(RunLines(lines[..|lines| - 1]), lines[|lines| - 1])
  }

  // ----- OpenAI to Anthropic, as the code runs it -----

  class OpenAIToAnthropicStream {
    var started: bool
    var contentBlockOpen: bool
    var toolCallBlocks: seq<ToolCallState>
    var inputTokens: nat
    var outputTokens: nat
    ghost var log: seq<Event>

    ghost function State(): OState
      reads this
    {
      OState(started, contentBlockOpen, toolCallBlocks, inputTokens, outputTokens, log)
    }

    constructor ()
      ensures State() == O_INITIAL
    {
      started, contentBlockOpen, toolCallBlocks, inputTokens, outputTokens, log := false, false, [], 0, 0, [];
    }

    /** Make room for the fragment's slot and merge the fragment into it. */
    method MergeFragment(f: Fragment)
      modifies this
      ensures State() == WithFragment(old(State()), f)
    {
      var idx := f.index.UnwrapOr(0);
      while |toolCallBlocks| <= idx
        invariant Grow(toolCallBlocks, idx + 1) == Grow(old(toolCallBlocks), idx + 1)
        invariant State() == old(State()).(tools := toolCallBlocks)
      {
        toolCallBlocks := toolCallBlocks + [ToolCallState(|toolCallBlocks|, "", "", "", false)];
      }
      var state := toolCallBlocks[idx];
      if f.id.Some? { state := state.(id := f.id.value); }
      if f.func.Some? {
        if f.func.value.name.Some? { state := state.(name := f.func.value.name.value); }
        if f.func.value.arguments.Some? {
          state := state.(arguments := state.arguments + f.func.value.arguments.value);
        }
      }
      assert state == Absorb(toolCallBlocks[idx], f);
      toolCallBlocks := toolCallBlocks[idx := state];
    }

    method StartBlock(idx: nat) returns (out: seq<Event>)
      requires idx < |toolCallBlocks|
      modifies this
      ensures State() == StartTool(old(State()), idx)
      ensures log == old(log) + out
    {
      out := [];
      var state := toolCallBlocks[idx];
      if !state.blockStarted && state.name != "" {
        if contentBlockOpen {
          out := [BlockStop(0)];
          contentBlockOpen := false;
        }
        toolCallBlocks := toolCallBlocks[idx := state.(blockStarted := true)];
        out := out + [ToolStart(idx + 1, state.id, state.name)];
      }
      log := log + out;
    }

    method ProcessFragment(f: Fragment) returns (out: seq<Event>)
      modifies this
      ensures State() == StepFragment(old(State()), f)
      ensures log == old(log) + out
    {
      var idx := f.index.UnwrapOr(0);
      MergeFragment(f);
      assert idx < |State().tools|;
      out := StartBlock(idx);
      assert idx < |State().tools|;
      if f.func.Some? && f.func.value.arguments.Some? {
        var args := f.func.value.arguments.value;
        if args != "" && toolCallBlocks[idx].blockStarted {
          out := out + [JsonDelta(idx + 1, args)];
          log := log + [JsonDelta(idx + 1, args)];
        }
      }
    }

    method ProcessToolCalls(calls: seq<Fragment>) returns (out: seq<Event>)
      modifies this
      ensures State() == StepFragments(old(State()), calls)
      ensures log == old(log) + out
    {
      out := [];
      for i := 0 to |calls|
        invariant State() == StepFragments(old(State()), calls[..i])
        invariant log == old(log) + out
      {
        FragmentsNext(old(State()), calls, i);
        var more := ProcessFragment(calls[i]);
        Regroup(old(log), out, more);
        out := out + more;
      }
      Whole(calls);
    }

    method ProcessText(content: Option<string>) returns (out: seq<Event>)
      modifies this
      ensures State() == StepText(old(State()), content)
      ensures log == old(log) + out
    {
      out := [];
      if content.Some? && content.value != "" {
        if !contentBlockOpen {
          contentBlockOpen := true;
          out := out + [TextStart()];
        }
        out := out + [TextDelta(content.value)];
        log := log + out;
      }
    }

    method ProcessFinish(finish: Option<string>) returns (out: seq<Event>)
      modifies this
      ensures State() == StepFinish(old(State()), finish)
      ensures log == old(log) + out
    {
      out := [];
      if finish.Some? {
        var stop := StopReason(finish.value);
        out := CloseBlocks();
        out := out + [MessageDelta(stop, outputTokens)];
        log := log + [MessageDelta(stop, outputTokens)];
      }
    }

    static method CollectStops(tools: seq<ToolCallState>) returns (out: seq<Event>)
      ensures out == Stops(tools)
    {
      out := [];
      for i := 0 to |tools|
        invariant out == Stops(tools[..i])
      {
        assert tools[..i + 1][..i] == tools[..i];
        if tools[i].blockStarted {
          out := out + [BlockStop(tools[i].index + 1)];
        }
      }
      Whole(tools);
    }

    /** Stops for the text block and every started tool block; the tool blocks stay marked started. */
    method CloseBlocks() returns (out: seq<Event>)
      modifies this
      ensures State() == CloseAll(old(State()))
      ensures log == old(log) + out
    {
      out := [];
      if contentBlockOpen {
        out := [BlockStop(0)];
        contentBlockOpen := false;
      }
      var stops: seq<Event> := CollectStops(toolCallBlocks);
      Regroup(log, out, stops);
      out := out + stops;
      log := log + out;
    }

    method ProcessDelta(delta: Delta) returns (out: seq<Event>)
      modifies this
      ensures State() == StepDelta(old(State()), delta)
      ensures log == old(log) + out
    {
      var text := ProcessText(delta.content);
      var calls := ProcessToolCalls(delta.toolCalls.UnwrapOr([]));
      out := text + calls;
    }

    method ProcessChoice(choice: Choice) returns (out: seq<Event>)
      modifies this
      ensures State() == StepChoice(old(State()), choice)
      ensures log == old(log) + out
    {
      out := [];
      if choice.delta.None? { return; }
      var body := ProcessDelta(choice.delta.value);
      var finish := ProcessFinish(choice.finishReason);
      out := body + finish;
    }

    /** Usage, and `message_start` on the first chunk. */
    method Begin(usage: Option<Usage>) returns (out: seq<Event>)
      modifies this
      ensures State() == StepStart(StepUsage(old(State()), usage))
      ensures log == old(log) + out
    {
      out := [];
      if usage.Some? {
        if usage.value.promptTokens.Some? { inputTokens := usage.value.promptTokens.value; }
        if usage.value.completionTokens.Some? { outputTokens := usage.value.completionTokens.value; }
      }
      if !started {
        started := true;
        out := [MessageStart(inputTokens)];
      }
      log := log + out;
    }

    method ProcessChoices(choices: seq<Choice>) returns (out: seq<Event>)
      modifies this
      ensures State() == StepChoices(old(State()), choices)
      ensures log == old(log) + out
    {
      out := [];
      for i := 0 to |choices|
        invariant State() == StepChoices(old(State()), choices[..i])
        invariant log == old(log) + out
      {
        assert choices[..i + 1][..i] == choices[..i];
        var more := ProcessChoice(choices[i]);
        out := out + more;
      }
      assert choices[..|choices|] == choices;
    }

    method ProcessChunk(data: Line) returns (events: seq<Event>)
      modifies this
      ensures State() == StepLine(old(State()), data)
      ensures log == old(log) + events
    {
      events := [];
      if data == Done {
        events := CloseBlocks();
        events := events + [MessageDelta("end_turn", outputTokens)] + [MESSAGE_STOP];
        log := log + [MessageDelta("end_turn", outputTokens)] + [MESSAGE_STOP];
        return;
      }
      if data == Malformed { return; }
      events := Begin(data.chunk.usage);
      if data.chunk.choices.Some? {
        var more := ProcessChoices(data.chunk.choices.value);
        events := events + more;
      }
    }
  }

  // ----- Anthropic to OpenAI, as a function of the state -----

  type CallIndex = i: int | -1 <= i witness -1

  /** `log` holds the lines emitted so far. */
  datatype AState = AState(toolCallIndex: CallIndex, inputTokens: nat, outputTokens: nat, log: seq<Line>)

  const A_INITIAL := AState(-1, 0, 0, [])

  function ChunkLine(delta: Delta, finish: Option<string>, usage: Option<Usage>): Line
  {
    Parsed(Chunk(usage, Some([Choice(Some(delta), finish)])))
  }

  const ROLE_CHUNK: Line := ChunkLine(Delta(Some(""), None), None, None)

  function TextChunk(text: string): Line
  {
    ChunkLine(Delta(Some(text), None), None, None)
  }

  function CallChunk(f: Fragment): Line
  {
    ChunkLine(Delta(None, Some([f])), None, None)
  }

  function FinishChunk(reason: string, inputTokens: nat, outputTokens: nat): Line
  {
    ChunkLine(Delta(None, None), Some(reason), Some(Usage(Some(inputTokens), Some(outputTokens))))
  }

  function EmitLine(a: AState, line: Line): AState
  {
    a.(log := a.log + [line])
  }

  function StepEvent(a: AState, e: Event): AState
  {
    var p := e.payload;
    match e.kind
    case MessageStartType => EmitLine(a.(inputTokens := p.inputTokens.UnwrapOr(a.inputTokens)), ROLE_CHUNK)
    case BlockStartType =>
      if p.contentBlock.Some? && p.contentBlock.value.kind == ToolUseBlock then
        var a1 := a.(toolCallIndex := a.toolCallIndex + 1);
        var cb := p.contentBlock.value;
        EmitLine(a1, CallChunk(Fragment(Some(a1.toolCallIndex), Some(cb.id.UnwrapOr("")),
                                        Some(Func(Some(cb.name.UnwrapOr("")), Some(""))))))
      else a
    case BlockDeltaType =>
      if p.delta.None? then a
      else
        (match p.delta.value.kind
         case TextDeltaType =>
           var text := p.delta.value.text.UnwrapOr("");
           if text == "" then a else EmitLine(a, TextChunk(text))
         case InputJsonDeltaType =>
           var partial := p.delta.value.partialJson.UnwrapOr("");
           if partial == "" || a.toolCallIndex < 0 then a
           else EmitLine(a, CallChunk(Fragment(Some(a.toolCallIndex), None, Some(Func(None, Some(partial))))))
         case OtherDelta => a)
    case BlockStopType => a
    case MessageDeltaType =>
      var a1 := a.(outputTokens := p.outputTokens.UnwrapOr(a.outputTokens));
      var stop := if p.delta.Some? then p.delta.value.stopReason.UnwrapOr("stop") else "stop";
      EmitLine(a1, FinishChunk(FinishReason(stop), a1.inputTokens, a1.outputTokens))
    case MessageStopType => EmitLine(a, Done)
    case OtherEvent => a
  }

  function RunEvents(events: seq<Event>): AState
  {
    if events == [] then A_INITIAL else StepEvent(RunEvents(events[..|events| - 1]), events[|events| - 1])
  }

  // ----- Anthropic to OpenAI, as the code runs it -----

  class AnthropicToOpenAIStream {
    var toolCallIndex: CallIndex
    var inputTokens: nat
    var outputTokens: nat
    ghost var log: seq<Line>

    ghost function State(): AState
      reads this
    {
      AState(toolCallIndex, inputTokens, outputTokens, log)
    }

    constructor ()
      ensures State() == A_INITIAL
    {
      toolCallIndex, inputTokens, outputTokens, log := -1, 0, 0, [];
    }

    /** `data` is None when it does not parse. */
    method ProcessEvent(eventType: EventType, data: Option<Payload>) returns (lines: seq<Line>)
      modifies this
      ensures State() == if data.None? then old(State()) else StepEvent(old(State()), Event(eventType, data.value))
      ensures log == old(log) + lines
    {
      lines := [];
      if data.None? { return; }
      var p := data.value;
      match eventType {
        case MessageStartType =>
          if p.inputTokens.Some? { inputTokens := p.inputTokens.value; }
          lines := [ROLE_CHUNK];
        case BlockStartType =>
          if p.contentBlock.Some? && p.contentBlock.value.kind == ToolUseBlock {
            toolCallIndex := toolCallIndex + 1;
            var id := p.contentBlock.value.id.UnwrapOr("");
            var name := p.contentBlock.value.name.UnwrapOr("");
            lines := [CallChunk(Fragment(Some(toolCallIndex), Some(id), Some(Func(Some(name), Some("")))))];
          }
        case BlockDeltaType =>
          if p.delta.Some? {
            match p.delta.value.kind {
              case TextDeltaType =>
                var text := p.delta.value.text.UnwrapOr("");
                if text != "" { lines := [TextChunk(text)]; }
              case InputJsonDeltaType =>
                var partial := p.delta.value.partialJson.UnwrapOr("");
                if partial != "" && toolCallIndex >= 0 {
                  lines := [CallChunk(Fragment(Some(toolCallIndex), None, Some(Func(None, Some(partial)))))];
                }
              case OtherDelta =>
            }
          }
        case BlockStopType =>
        case MessageDeltaType =>
          if p.outputTokens.Some? { outputTokens := p.outputTokens.value; }
          var stop := if p.delta.Some? then p.delta.value.stopReason.UnwrapOr("stop") else "stop";
          lines := [FinishChunk(FinishReason(stop), inputTokens, outputTokens)];
        case MessageStopType =>
          lines := [Done];
        case OtherEvent =>
      }
      log := log + lines;
    }
  }
}
