/** Token usage through both stream converters (src/transform.rs:238-271, :386-390, :567-573, :624-639,
    :665-682): what a client of the twice-converted stream is told, for every stream whatever. */
module StreamUsage {
  import opened Wrappers
  import opened Lists
  import opened Streams
  import opened StreamBrackets

  // ----- what the stream itself reports -----

  function UsageOf(line: Line): Usage
  {
    if line.Parsed? then line.chunk.usage.UnwrapOr(Usage(None, None)) else Usage(None, None)
  }

  /** The prompt tokens of the first chunk that parses: later ones come after `message_start`. */
  ghost function PromptTokens(lines: seq<Line>): nat
  {
    if lines == [] then 0
    else
      var k := |lines| - 1;
      if AnyParsed(lines[..k]) then PromptTokens(lines[..k]) else UsageOf(lines[k]).promptTokens.UnwrapOr(0)
  }

  /** The completion tokens last reported. */
  function CompletionTokens(lines: seq<Line>): nat
  {
    if lines == [] then 0
    else
      var k := |lines| - 1;
      UsageOf(lines[k]).completionTokens.UnwrapOr(CompletionTokens(lines[..k]))
  }

  // ----- what the converters know -----

  /** Whether the message started, the input tokens the second converter has been told, and the output
      tokens the first one will tell it. */
  function Told(s: OState): (bool, nat, nat)
  {
    (s.started, RunEvents(s.log).inputTokens, s.outputTokens)
  }

  lemma EmitTold(s: OState, e: Event)
    requires e.kind != MessageStartType
    ensures Told(Emit(s, e)) == Told(s)
  {
    assert (s.log + [e])[..|s.log|] == s.log;
  }

  lemma CloseTextTold(s: OState)
    ensures Told(CloseText(s)) == Told(s)
  {
    if s.contentBlockOpen { EmitTold(s.(contentBlockOpen := false), BlockStop(0)); }
  }

  lemma StartToolTold(s: OState, idx: nat)
    requires idx < |s.tools|
    ensures Told(StartTool(s, idx)) == Told(s)
  {
    var t := s.tools[idx];
    if !t.blockStarted && t.name != "" {
      CloseTextTold(s);
      var s1 := CloseText(s);
      EmitTold(s1.(tools := s1.tools[idx := t.(blockStarted := true)]), ToolStart(idx + 1, t.id, t.name));
    }
  }

  lemma FragmentTold(s: OState, f: Fragment)
    ensures Told(StepFragment(s, f)) == Told(s)
  {
    var s1 := WithFragment(s, f);
    StartToolTold(s1, Slot(f));
    var s2 := StartTool(s1, Slot(f));
    if ArgumentsIn(f).Some? { EmitTold(s2, JsonDelta(Slot(f) + 1, ArgumentsIn(f).value)); }
  }

  lemma {:induction false} FragmentsTold(s: OState, fs: seq<Fragment>)
    ensures Told(StepFragments(s, fs)) == Told(s)
  {
    if fs != [] {
      var k := |fs| - 1;
      FragmentsTold(s, fs[..k]);
      FragmentTold(StepFragments(s, fs[..k]), fs[k]);
    }
  }

  lemma TextTold(s: OState, content: Option<string>)
    ensures Told(StepText(s, content)) == Told(s)
  {
    if content.Some? && content.value != "" {
      EmitTold(s.(contentBlockOpen := true), TextStart());
      var s1 := if s.contentBlockOpen then s else Emit(s.(contentBlockOpen := true), TextStart());
      EmitTold(s1, TextDelta(content.value));
    }
  }

  lemma {:induction false} StopsTold(s: OState, tools: seq<ToolCallState>)
    ensures Told(s.(log := s.log + Stops(tools))) == Told(s)
  {
    if tools == [] {
      NoMore(s.log);
    } else {
      var k := |tools| - 1;
      StopsTold(s, tools[..k]);
      if tools[k].blockStarted {
        Regroup(s.log, Stops(tools[..k]), [BlockStop(tools[k].index + 1)]);
        EmitTold(s.(log := s.log + Stops(tools[..k])), BlockStop(tools[k].index + 1));
      } else {
        NoMore(Stops(tools[..k]));
      }
    }
  }

  lemma CloseAllTold(s: OState)
    ensures Told(CloseAll(s)) == Told(s)
  {
    CloseTextTold(s);
    StopsTold(CloseText(s), CloseText(s).tools);
  }

  lemma DeltaTold(s: OState, delta: Delta)
    ensures Told(StepDelta(s, delta)) == Told(s)
  {
    TextTold(s, delta.content);
    FragmentsTold(StepText(s, delta.content), delta.toolCalls.UnwrapOr([]));
  }

  lemma ChoiceTold(s: OState, c: Choice)
    ensures Told(StepChoice(s, c)) == Told(s)
  {
    if c.delta.Some? {
      DeltaTold(s, c.delta.value);
      var s1 := StepDelta(s, c.delta.value);
      if c.finishReason.Some? {
        CloseAllTold(s1);
        EmitTold(CloseAll(s1), MessageDelta(StopReason(c.finishReason.value), s1.outputTokens));
      }
    }
  }

  lemma {:induction false} ChoicesTold(s: OState, cs: seq<Choice>)
    ensures Told(StepChoices(s, cs)) == Told(s)
  {
    if cs != [] {
      var k := |cs| - 1;
      ChoicesTold(s, cs[..k]);
      ChoiceTold(StepChoices(s, cs[..k]), cs[k]);
    }
  }

  lemma StartTold(s: OState)
    ensures Told(StepStart(s)) == if s.started then Told(s) else (true, s.inputTokens, s.outputTokens)
  {
    if !s.started {
      var e := MessageStart(s.inputTokens);
      assert (s.log + [e])[..|s.log|] == s.log;
    }
  }

  /** The state that a chunk's choices are read in. */
  function Begun(s: OState, line: Line): OState
    requires line.Parsed?
  {
    StepStart(StepUsage(s, line.chunk.usage))
  }

  lemma BegunTold(s: OState, line: Line)
    requires line.Parsed?
    ensures Told(Begun(s, line)) ==
            (true,
             if s.started then Told(s).1 else UsageOf(line).promptTokens.UnwrapOr(s.inputTokens),
             UsageOf(line).completionTokens.UnwrapOr(s.outputTokens))
  {
    StartTold(StepUsage(s, line.chunk.usage));
  }

  lemma DoneTold(s: OState)
    ensures Told(StepLine(s, Done)) == Told(s) && StepLine(s, Done).inputTokens == s.inputTokens
  {
    CloseAllTold(s);
    EmitTold(CloseAll(s), MessageDelta("end_turn", s.outputTokens));
    EmitTold(Emit(CloseAll(s), MessageDelta("end_turn", s.outputTokens)), MESSAGE_STOP);
  }

  /** What the converters know after any stream is what the stream reported. */
  lemma {:induction false} RunTold(lines: seq<Line>)
    ensures var s := RunLines(lines);
            && Told(s) == (AnyParsed(lines), PromptTokens(lines), CompletionTokens(lines))
            && (!s.started ==> s.inputTokens == 0)
  {
    if lines != [] {
      var k := |lines| - 1;
      RunTold(lines[..k]);
      AnyParsedStep(lines);
      var s := RunLines(lines[..k]);
      match lines[k]
      case Done => DoneTold(s);
      case Malformed =>
      case Parsed(chunk) =>
        BegunTold(s, lines[k]);
        ChoicesTold(Begun(s, lines[k]), chunk.choices.UnwrapOr([]));
    }
  }

  lemma {:induction false} AnyParsedStep(lines: seq<Line>)
    requires lines != []
    ensures AnyParsed(lines) <==> AnyParsed(lines[..|lines| - 1]) || lines[|lines| - 1].Parsed?
    ensures !AnyParsed(lines) ==> PromptTokens(lines) == 0
  {
    var k := |lines| - 1;
    assert forall i :: 0 <= i < k ==> lines[..k][i] == lines[i];
  }

  lemma RunLast(lines: seq<Line>, last: Line)
    ensures RunLines(lines + [last]) == StepLine(RunLines(lines), last)
  {
    assert (lines + [last])[..|lines|] == lines;
  }

  // ----- what the client is told -----

  /** The last line of the twice-converted output. */
  function LastLine(s: OState): Option<Line>
  {
    var out := RunEvents(s.log).log;
    if out == [] then None else Some(out[|out| - 1])
  }

  /** What a `message_delta` adds to the second converter's output. */
  lemma DeltaLine(log: seq<Event>, stop: string, tokens: nat)
    ensures RunEvents(log + [MessageDelta(stop, tokens)]).log ==
            RunEvents(log).log + [FinishChunk(FinishReason(stop), RunEvents(log).inputTokens, tokens)]
  {
    var e := MessageDelta(stop, tokens);
    assert (log + [e])[..|log|] == log;
  }

  lemma DeltaTells(s: OState, stop: string)
    ensures LastLine(Emit(s, MessageDelta(stop, s.outputTokens))) ==
            Some(FinishChunk(FinishReason(stop), Told(s).1, Told(s).2))
  {
    DeltaLine(s.log, stop, s.outputTokens);
  }

  lemma FinishTells(s: OState, c: Choice)
    requires Ends(c)
    ensures LastLine(StepChoice(s, c)) ==
            Some(FinishChunk(FinishReason(StopReason(c.finishReason.value)), Told(s).1, Told(s).2))
  {
    DeltaTold(s, c.delta.value);
    var s1 := StepDelta(s, c.delta.value);
    CloseAllTold(s1);
    DeltaTells(CloseAll(s1), StopReason(c.finishReason.value));
  }

  /** After every stream, a chunk whose last choice has a finish reason makes the client's last chunk, and
      its usage is the prompt tokens of the stream's first chunk and the completion tokens it reported last,
      this chunk included. */
  lemma FinishReportsUsage(lines: seq<Line>, last: Line)
    requires ChoicesOf(last) != [] && Ends(ChoicesOf(last)[|ChoicesOf(last)| - 1])
    ensures var all := lines + [last];
            var reason := ChoicesOf(last)[|ChoicesOf(last)| - 1].finishReason.value;
            LastLine(RunLines(all)) ==
            Some(FinishChunk(FinishReason(StopReason(reason)), PromptTokens(all), CompletionTokens(all)))
  {
    var all := lines + [last];
    RunLast(lines, last);
    var cs := ChoicesOf(last);
    var k := |cs| - 1;
    RunTold(all);
    var s := Begun(RunLines(lines), last);
    assert RunLines(all) == StepChoices(s, cs);
    ChoicesTold(s, cs);
    ChoicesTold(s, cs[..k]);
    FinishTells(StepChoices(s, cs[..k]), cs[k]);
  }

  lemma StopTells(log: seq<Event>)
    ensures RunEvents(log + [MESSAGE_STOP]).log == RunEvents(log).log + [Done]
  {
    assert (log + [MESSAGE_STOP])[..|log|] == log;
  }

  lemma DoneLines(s: OState, log: seq<Event>)
    requires log == CloseAll(s).log
    ensures RunEvents(StepLine(s, Done).log).log ==
            RunEvents(log).log + [FinishChunk(FinishReason("end_turn"), RunEvents(log).inputTokens, s.outputTokens)] + [Done]
  {
    DeltaLine(log, "end_turn", s.outputTokens);
    StopTells(log + [MessageDelta("end_turn", s.outputTokens)]);
  }

  /** The output ends in these two lines. */
  predicate EndsIn(out: seq<Line>, beforeLast: Line, last: Line)
  {
    |out| >= 2 && out[|out| - 2] == beforeLast && out[|out| - 1] == last
  }

  lemma DoneTells(s: OState)
    ensures EndsIn(RunEvents(StepLine(s, Done).log).log,
                   FinishChunk(FinishReason("end_turn"), Told(s).1, Told(s).2), Done)
  {
    CloseAllTold(s);
    DoneLines(s, CloseAll(s).log);
  }

  /** And `[DONE]` makes a last chunk with the same usage, followed by the client's own `[DONE]`. */
  lemma DoneReportsUsage(lines: seq<Line>)
    ensures EndsIn(RunEvents(RunLines(lines + [Done]).log).log,
                   FinishChunk(FinishReason("end_turn"), PromptTokens(lines), CompletionTokens(lines)), Done)
  {
    RunLast(lines, Done);
    RunTold(lines);
    DoneTells(RunLines(lines));
  }
}
