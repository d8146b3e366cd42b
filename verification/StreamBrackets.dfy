/** The Anthropic events made out of an OpenAI stream are well bracketed up to the first terminal
    chunk (src/transform.rs:209-394). A monitor that knows nothing of the converter reads the events
    one by one and gives up at the first one out of place. */
module StreamBrackets {
  import opened Wrappers
  import opened Streams

  datatype Monitor = Monitor(started: bool, textOpen: bool, toolsOpen: set<nat>, toolsUsed: set<nat>, ended: bool)

  const FRESH := Monitor(false, false, {}, {}, false)

  /** Block 0 is the text block, which may start again after it stopped; a tool block may not. */
  function Accept(m: Monitor, e: Event): Option<Monitor>
  {
    var i := e.payload.index.UnwrapOr(0);
    match e.kind
    case MessageStartType =>
      if m.started then None else Some(m.(started := true))
    case BlockStartType =>
      if !m.started || m.ended || e.payload.contentBlock.None? then None
      else if e.payload.contentBlock.value.kind == TextBlock then
        if i == 0 && !m.textOpen then Some(m.(textOpen := true)) else None
      else if e.payload.contentBlock.value.kind == ToolUseBlock then
        if i > 0 && i !in m.toolsUsed && !m.textOpen
        then Some(m.(toolsOpen := m.toolsOpen + {i}, toolsUsed := m.toolsUsed + {i})) else None
      else None
    case BlockDeltaType =>
      if m.ended || e.payload.delta.None? then None
      else if e.payload.delta.value.kind == TextDeltaType then
        if i == 0 && m.textOpen then Some(m) else None
      else if e.payload.delta.value.kind == InputJsonDeltaType then
        if i in m.toolsOpen then Some(m) else None
      else None
    case BlockStopType =>
      if m.ended then None
      else if i == 0 then if m.textOpen then Some(m.(textOpen := false)) else None
      else if i in m.toolsOpen then Some(m.(toolsOpen := m.toolsOpen - {i})) else None
    case MessageDeltaType =>
      if m.started && !m.ended && !m.textOpen && m.toolsOpen == {} then Some(m.(ended := true)) else None
    case MessageStopType =>
      if m.ended then Some(m) else None
    case OtherEvent => None
  }

  function Watch(events: seq<Event>): Option<Monitor>
  {
    if events == [] then Some(FRESH)
    else
      var m := Watch(events[..|events| - 1]);
      if m.None? then None else Accept(m.value, events[|events| - 1])
  }

  // ----- tool slots -----

  ghost predicate SlotsIndexed(tools: seq<ToolCallState>)
  {
    forall i :: 0 <= i < |tools| ==> tools[i].index == i
  }

  /** The block numbers of the tool slots that have started. */
  ghost function StartedBlocks(tools: seq<ToolCallState>): set<nat>
  {
    set i: nat | 0 < i <= |tools| && IsStarted(tools, i)
  }

  ghost predicate IsStarted(tools: seq<ToolCallState>, block: nat)
  {
    0 < block <= |tools| && tools[block - 1].blockStarted
  }

  /** What the monitor has seen is what the converter believes. */
  ghost predicate InStep(s: OState)
  {
    && SlotsIndexed(s.tools)
    && Watch(s.log) == Some(Monitor(s.started, s.contentBlockOpen, StartedBlocks(s.tools), StartedBlocks(s.tools), false))
    && (!s.started ==> !s.contentBlockOpen && StartedBlocks(s.tools) == {})
  }

  lemma WatchEmit(log: seq<Event>, e: Event)
    ensures Watch(log + [e]) == if Watch(log).None? then None else Accept(Watch(log).value, e)
  {
    assert (log + [e])[..|log + [e]| - 1] == log;
  }

  lemma FragmentInStep(s: OState, f: Fragment)
    requires InStep(s)
    ensures InStep(WithFragment(s, f)) && WithFragment(s, f).started == s.started
  {
    var idx := Slot(f);
    GrowLength(s.tools, idx + 1);
    assert StartedBlocks(WithFragment(s, f).tools) == StartedBlocks(s.tools);
  }

  lemma CloseTextInStep(s: OState)
    requires InStep(s)
    ensures InStep(CloseText(s)) && !CloseText(s).contentBlockOpen
  {
    WatchEmit(s.log, BlockStop(0));
  }

  lemma StartToolInStep(s: OState, idx: nat)
    requires InStep(s) && s.started && idx < |s.tools|
    ensures InStep(StartTool(s, idx)) && StartTool(s, idx).started
  {
    var t := s.tools[idx];
    if !t.blockStarted && t.name != "" {
      CloseTextInStep(s);
      var s1 := CloseText(s);
      WatchEmit(s1.log, ToolStart(idx + 1, t.id, t.name));
      var s2 := StartTool(s, idx);
      assert StartedBlocks(s2.tools) == StartedBlocks(s.tools) + {idx + 1};
    }
  }

  lemma StreamArgumentsInStep(s: OState, idx: nat, args: Option<string>)
    requires InStep(s) && s.started && idx < |s.tools|
    ensures InStep(StreamArguments(s, idx, args)) && StreamArguments(s, idx, args).started
  {
    if args.Some? && args.value != "" && s.tools[idx].blockStarted {
      WatchEmit(s.log, JsonDelta(idx + 1, args.value));
    }
  }

  lemma StepFragmentInStep(s: OState, f: Fragment)
    requires InStep(s) && s.started
    ensures InStep(StepFragment(s, f)) && StepFragment(s, f).started
  {
    FragmentInStep(s, f);
    StartToolInStep(WithFragment(s, f), Slot(f));
    StreamArgumentsInStep(StartTool(WithFragment(s, f), Slot(f)), Slot(f), ArgumentsIn(f));
  }

  lemma {:induction false} StepFragmentsInStep(s: OState, fs: seq<Fragment>)
    requires InStep(s) && s.started
    ensures InStep(StepFragments(s, fs)) && StepFragments(s, fs).started
  {
    if fs != [] {
      StepFragmentsInStep(s, fs[..|fs| - 1]);
      StepFragmentInStep(StepFragments(s, fs[..|fs| - 1]), fs[|fs| - 1]);
    }
  }

  lemma StepDeltaInStep(s: OState, delta: Delta)
    requires InStep(s) && s.started
    ensures InStep(StepDelta(s, delta)) && StepDelta(s, delta).started
  {
    StepFragmentsInStep(StepText(s, delta.content), delta.toolCalls.UnwrapOr([]));
  }

  lemma StepStartInStep(s: OState)
    requires InStep(s)
    ensures InStep(StepStart(s)) && StepStart(s).started
  {
    WatchEmit(s.log, MessageStart(s.inputTokens));
  }

  // ----- terminal chunks -----

  predicate Ends(c: Choice)
  {
    c.delta.Some? && c.finishReason.Some?
  }

  predicate NoneEnds(cs: seq<Choice>)
  {
    forall i :: 0 <= i < |cs| ==> !Ends(cs[i])
  }

  function ChoicesOf(line: Line): seq<Choice>
  {
    if line.Parsed? then line.chunk.choices.UnwrapOr([]) else []
  }

  predicate Continues(line: Line)
  {
    line != Done && NoneEnds(ChoicesOf(line))
  }

  /** `[DONE]`, or a chunk whose last choice, and no other, carries a finish reason; every
      single-choice chunk with a finish reason is one. */
  predicate Terminal(line: Line)
  {
    line == Done ||
    var cs := ChoicesOf(line);
    cs != [] && Ends(cs[|cs| - 1]) && NoneEnds(cs[..|cs| - 1])
  }

  lemma {:induction false} StepChoicesInStep(s: OState, cs: seq<Choice>)
    requires InStep(s) && s.started && NoneEnds(cs)
    ensures InStep(StepChoices(s, cs)) && StepChoices(s, cs).started
  {
    if cs != [] {
      var k := |cs| - 1;
      StepChoicesInStep(s, cs[..k]);
      assert !Ends(cs[k]);
      if cs[k].delta.Some? {
        StepDeltaInStep(StepChoices(s, cs[..k]), cs[k].delta.value);
      }
    }
  }

  lemma UsageInStep(s: OState, usage: Option<Usage>)
    requires InStep(s)
    ensures InStep(StepUsage(s, usage))
  {
  }

  lemma LineInStep(s: OState, line: Line)
    requires InStep(s) && Continues(line)
    ensures InStep(StepLine(s, line))
    ensures StepLine(s, line).started <==> s.started || line.Parsed?
  {
    if line.Parsed? {
      UsageInStep(s, line.chunk.usage);
      StepStartInStep(StepUsage(s, line.chunk.usage));
      StepChoicesInStep(StepStart(StepUsage(s, line.chunk.usage)), ChoicesOf(line));
    }
  }

  lemma {:induction false} RunLinesInStep(lines: seq<Line>)
    requires forall i :: 0 <= i < |lines| ==> Continues(lines[i])
    ensures InStep(RunLines(lines))
    ensures RunLines(lines).started <==> AnyParsed(lines)
  {
    if lines != [] {
      var k := |lines| - 1;
      RunLinesInStep(lines[..k]);
      LineInStep(RunLines(lines[..k]), lines[k]);
      assert forall i :: 0 <= i < k ==> lines[..k][i] == lines[i];
    } else {
      assert StartedBlocks([]) == {};
    }
  }

  /** Stopping every started tool leaves none open. */
  lemma {:induction false} WatchStops(log: seq<Event>, tools: seq<ToolCallState>, m: Monitor)
    requires SlotsIndexed(tools) && Watch(log) == Some(m) && !m.ended && StartedBlocks(tools) <= m.toolsOpen
    ensures Watch(log + Stops(tools)) == Some(m.(toolsOpen := m.toolsOpen - StartedBlocks(tools)))
  {
    if tools == [] {
      assert log + Stops(tools) == log;
      assert m.toolsOpen - StartedBlocks(tools) == m.toolsOpen;
    } else {
      var k := |tools| - 1;
      assert StartedBlocks(tools) == StartedBlocks(tools[..k]) + if tools[k].blockStarted then {k + 1} else {};
      WatchStops(log, tools[..k], m);
      assert m.toolsOpen - StartedBlocks(tools)
          == m.toolsOpen - StartedBlocks(tools[..k]) - if tools[k].blockStarted then {k + 1} else {};
      if tools[k].blockStarted {
        assert k + 1 !in StartedBlocks(tools[..k]);
        WatchEmit(log + Stops(tools[..k]), BlockStop(k + 1));
        assert log + Stops(tools) == log + Stops(tools[..k]) + [BlockStop(k + 1)];
      } else {
        assert Stops(tools) == Stops(tools[..k]);
        assert m.toolsOpen - StartedBlocks(tools) == m.toolsOpen - StartedBlocks(tools[..k]);
      }
    }
  }

  ghost predicate Ended(m: Option<Monitor>)
  {
    m.Some? && m.value.ended && !m.value.textOpen && m.value.toolsOpen == {}
  }

  lemma CloseAllThenEnd(s: OState, stop: string, out: nat)
    requires InStep(s) && s.started
    ensures Ended(Watch(Emit(CloseAll(s), MessageDelta(stop, out)).log))
  {
    CloseTextInStep(s);
    var s1 := CloseText(s);
    WatchStops(s1.log, s1.tools, Watch(s1.log).value);
    assert StartedBlocks(s1.tools) - StartedBlocks(s1.tools) == {};
    WatchEmit(CloseAll(s).log, MessageDelta(stop, out));
  }

  lemma TerminalChunkEnds(s: OState, line: Line)
    requires InStep(s) && line.Parsed? && Terminal(line)
    ensures Ended(Watch(StepLine(s, line).log))
  {
    var chunk := line.chunk;
    var cs := ChoicesOf(line);
    var k := |cs| - 1;
    UsageInStep(s, chunk.usage);
    StepStartInStep(StepUsage(s, chunk.usage));
    var s1 := StepStart(StepUsage(s, chunk.usage));
    StepChoicesInStep(s1, cs[..k]);
    var s2 := StepChoices(s1, cs[..k]);
    StepDeltaInStep(s2, cs[k].delta.value);
    var s3 := StepDelta(s2, cs[k].delta.value);
    CloseAllThenEnd(s3, StopReason(cs[k].finishReason.value), s3.outputTokens);
  }

  lemma DoneEnds(s: OState)
    requires InStep(s) && s.started
    ensures Ended(Watch(StepLine(s, Done).log))
  {
    CloseAllThenEnd(s, "end_turn", s.outputTokens);
    WatchEmit(Emit(CloseAll(s), MessageDelta("end_turn", s.outputTokens)).log, MESSAGE_STOP);
  }

  /** For every stream up to and including its first terminal line, if anything in it parses: the
      monitor accepts every event and ends with no block open. */
  lemma WellBracketed(lines: seq<Line>, last: Line)
    requires forall i :: 0 <= i < |lines| ==> Continues(lines[i])
    requires Terminal(last)
    requires last.Parsed? || AnyParsed(lines)
    ensures Ended(Watch(RunLines(lines + [last]).log))
  {
    RunLinesInStep(lines);
    var s := RunLines(lines);
    assert (lines + [last])[..|lines + [last]| - 1] == lines;
    if last == Done {
      DoneEnds(s);
    } else {
      TerminalChunkEnds(s, last);
    }
  }

  // ----- the condition cannot be dropped -----

  /** A message that is over stays over: no later event can reopen it. */
  ghost predicate Over(m: Option<Monitor>)
  {
    m.Some? ==> m.value.ended
  }

  lemma {:induction false} OverStays(log: seq<Event>, more: seq<Event>)
    requires Over(Watch(log))
    ensures Over(Watch(log + more))
  {
    if more == [] {
      assert log + more == log;
    } else {
      var k := |more| - 1;
      OverStays(log, more[..k]);
      assert log + more == log + more[..k] + [more[k]];
      WatchEmit(log + more[..k], more[k]);
    }
  }

  lemma CloseAllExtends(s: OState) returns (more: seq<Event>)
    ensures CloseAll(s).log == s.log + more
  {
    var first := if s.contentBlockOpen then [BlockStop(0)] else [];
    more := first + Stops(s.tools);
    assert CloseText(s).log == s.log + first;
  }

  lemma OverRejectsDone(s: OState)
    requires Over(Watch(s.log))
    ensures Watch(StepLine(s, Done).log).None?
  {
    var more := CloseAllExtends(s);
    OverStays(s.log, more);
  }

  lemma UnstartedRejectsDone(s: OState)
    requires InStep(s) && !s.started
    ensures Watch(StepLine(s, Done).log).None?
  {
    WatchStops(s.log, s.tools, Watch(s.log).value);
  }

  ghost predicate AnyParsed(lines: seq<Line>)
  {
    exists i :: 0 <= i < |lines| && lines[i].Parsed?
  }

  lemma TerminalIsOver(lines: seq<Line>, last: Line)
    requires forall i :: 0 <= i < |lines| ==> Continues(lines[i])
    requires Terminal(last)
    ensures Over(Watch(RunLines(lines + [last]).log))
  {
    if last.Parsed? || AnyParsed(lines) {
      WellBracketed(lines, last);
    } else {
      RunLinesInStep(lines);
      assert (lines + [last])[..|lines + [last]| - 1] == lines;
      UnstartedRejectsDone(RunLines(lines));
    }
  }

  /** Exactly when the monitor rejects `[DONE]`: after a terminal line, whose stops and
      `message_delta` it repeats, and when nothing parsed before it, for the message never started. */
  lemma DoneRejectedExactly(lines: seq<Line>, last: Line)
    requires forall i :: 0 <= i < |lines| ==> Continues(lines[i])
    requires Continues(last) || Terminal(last)
    ensures Watch(RunLines(lines + [last] + [Done]).log).None? <==>
            Terminal(last) || !AnyParsed(lines + [last])
  {
    var all := lines + [last];
    assert (all + [Done])[..|all + [Done]| - 1] == all;
    if Terminal(last) {
      TerminalIsOver(lines, last);
      OverRejectsDone(RunLines(all));
    } else {
      RunLinesInStep(all);
      if AnyParsed(all) {
        WellBracketed(all, Done);
      } else {
        UnstartedRejectsDone(RunLines(all));
      }
    }
  }

  /** Whatever the stream, tool slot i always has index i. */
  lemma {:induction false} RunLinesSlots(lines: seq<Line>)
    ensures SlotsIndexed(RunLines(lines).tools)
  {
    if lines != [] {
      var k := |lines| - 1;
      RunLinesSlots(lines[..k]);
      if lines[k].Parsed? {
        ChoicesSlots(StepStart(StepUsage(RunLines(lines[..k]), lines[k].chunk.usage)), ChoicesOf(lines[k]));
      }
    }
  }

  lemma {:induction false} FragmentsSlots(s: OState, fs: seq<Fragment>)
    requires SlotsIndexed(s.tools)
    ensures SlotsIndexed(StepFragments(s, fs).tools)
  {
    if fs != [] {
      var k := |fs| - 1;
      FragmentsSlots(s, fs[..k]);
      FragmentSlots(StepFragments(s, fs[..k]), fs[k]);
    }
  }

  lemma FragmentSlots(s: OState, f: Fragment)
    requires SlotsIndexed(s.tools)
    ensures SlotsIndexed(StepFragment(s, f).tools)
  {
    GrowLength(s.tools, Slot(f) + 1);
  }

  lemma {:induction false} ChoicesSlots(s: OState, cs: seq<Choice>)
    requires SlotsIndexed(s.tools)
    ensures SlotsIndexed(StepChoices(s, cs).tools)
  {
    if cs != [] {
      var k := |cs| - 1;
      ChoicesSlots(s, cs[..k]);
      if cs[k].delta.Some? {
        FragmentsSlots(StepText(StepChoices(s, cs[..k]), cs[k].delta.value.content),
                       cs[k].delta.value.toolCalls.UnwrapOr([]));
      }
    }
  }
}
