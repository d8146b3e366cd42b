/** What a client of the Anthropic Messages API reads off the events made out of an OpenAI stream
    (src/transform.rs:209-394), for every stream whatever: which text, which tool uses, which usage and which
    stop reasons. Events are read by their payloads, and the stream by its chunks. */
module AnthropicClients {
  import opened Wrappers
  import opened Lists
  import opened Streams
  import opened StreamBrackets
  import opened StreamUsage

  // ----- the client -----

  datatype Tool = Tool(id: string, name: string, input: string)

  datatype Stop = Stop(reason: string, outputTokens: nat)

  /** Tool uses by block index; a stop for every `message_delta`; the input tokens of every `message_start`. */
  datatype Reply = Reply(text: string, tools: map<nat, Tool>, stops: seq<Stop>, starts: seq<nat>)

  const NO_REPLY := Reply("", map[], [], [])

  function ReadStart(tools: map<nat, Tool>, index: nat, b: ContentBlock): map<nat, Tool>
  {
    if b.kind == ToolUseBlock then tools[index := Tool(b.id.UnwrapOr(""), b.name.UnwrapOr(""), "")] else tools
  }

  function ReadDelta(r: Reply, index: nat, d: EventDelta): Reply
  {
    match d.kind
    case TextDeltaType => r.(text := r.text + d.text.UnwrapOr(""))
    case InputJsonDeltaType =>
      if index in r.tools then
        r.(tools := r.tools[index := r.tools[index].(input := r.tools[index].input + d.partialJson.UnwrapOr(""))])
      else r
    case OtherDelta => r
  }

  function ReadEvent(r: Reply, e: Event): Reply
  {
    var p := e.payload;
    match e.kind
    case MessageStartType => r.(starts := r.starts + [p.inputTokens.UnwrapOr(0)])
    case BlockStartType =>
      if p.index.Some? && p.contentBlock.Some?
      then r.(tools := ReadStart(r.tools, p.index.value, p.contentBlock.value)) else r
    case BlockDeltaType => if p.index.Some? && p.delta.Some? then ReadDelta(r, p.index.value, p.delta.value) else r
    case MessageDeltaType =>
      r.(stops := r.stops + [Stop(if p.delta.Some? then p.delta.value.stopReason.UnwrapOr("") else "",
                                  p.outputTokens.UnwrapOr(0))])
    case _ => r
  }

  function ReadAll(events: seq<Event>): Reply
  {
    if events == [] then NO_REPLY else ReadEvent(ReadAll(events[..|events| - 1]), events[|events| - 1])
  }

  lemma ReadMore(events: seq<Event>, e: Event)
    ensures ReadAll(events + [e]) == ReadEvent(ReadAll(events), e)
  {
    assert (events + [e])[..|events|] == events;
  }

  // ----- what the stream says -----

  function ChoiceText(c: Choice): string
  {
    if c.delta.Some? then c.delta.value.content.UnwrapOr("") else ""
  }

  function ChoiceFragments(c: Choice): seq<Fragment>
  {
    if c.delta.Some? then c.delta.value.toolCalls.UnwrapOr([]) else []
  }

  function LineText(line: Line): string
  {
    FlatMap(ChoiceText, ChoicesOf(line))
  }

  function LineFragments(line: Line): seq<Fragment>
  {
    FlatMap(ChoiceFragments, ChoicesOf(line))
  }

  /** All text of the stream, and all its tool-call fragments, in order. */
  function TextOf(lines: seq<Line>): string
  {
    FlatMap(LineText, lines)
  }

  function FragmentsOf(lines: seq<Line>): seq<Fragment>
  {
    FlatMap(LineFragments, lines)
  }

  // ----- one call, from its own fragments -----

  function OfSlot(fs: seq<Fragment>, i: nat): seq<Fragment>
  {
    if fs == [] then []
    else OfSlot(fs[..|fs| - 1], i) + if fs[|fs| - 1].index.UnwrapOr(0) == i then [fs[|fs| - 1]] else []
  }

  /** The id and the name given last. */
  function IdSoFar(fs: seq<Fragment>): string
  {
    if fs == [] then "" else fs[|fs| - 1].id.UnwrapOr(IdSoFar(fs[..|fs| - 1]))
  }

  function NameSoFar(fs: seq<Fragment>): string
  {
    if fs == [] then ""
    else
      var f := fs[|fs| - 1].func;
      if f.Some? && f.value.name.Some? then f.value.name.value else NameSoFar(fs[..|fs| - 1])
  }

  function ArgumentsFrom(f: Fragment): string
  {
    if f.func.Some? then f.func.value.arguments.UnwrapOr("") else ""
  }

  function ArgumentsSaid(fs: seq<Fragment>): string
  {
    FlatMap(ArgumentsFrom, fs)
  }

  /** The k-th fragment is the one that first gives the call a name. */
  predicate NamedAt(fs: seq<Fragment>, k: nat)
  {
    0 < k <= |fs| && NameSoFar(fs[..k]) != "" && forall j :: 0 <= j < k ==> NameSoFar(fs[..j]) == ""
  }

  /** A tool use with the id and name known when the call was first named, and all arguments from then on. */
  predicate ToolFor(fs: seq<Fragment>, k: nat, t: Tool)
    requires 0 < k <= |fs|
  {
    t == Tool(IdSoFar(fs[..k]), NameSoFar(fs[..k]), ArgumentsSaid(fs[k - 1..]))
  }

  /** The same, one fragment at a time. */
  function Gained(fs: seq<Fragment>): Option<Tool>
  {
    if fs == [] then None
    else
      var args := ArgumentsFrom(fs[|fs| - 1]);
      match Gained(fs[..|fs| - 1])
      case Some(t) => Some(t.(input := t.input + args))
      case None => if NameSoFar(fs) != "" then Some(Tool(IdSoFar(fs), NameSoFar(fs), args)) else None
  }

  ghost predicate NeverNamed(fs: seq<Fragment>)
  {
    forall k :: 0 <= k <= |fs| ==> NameSoFar(fs[..k]) == ""
  }

  lemma {:induction false} GainedExactly(fs: seq<Fragment>)
    ensures Gained(fs).None? <==> NeverNamed(fs)
    ensures Gained(fs).Some? ==> exists k: nat :: NamedAt(fs, k) && ToolFor(fs, k, Gained(fs).value)
  {
    if fs == [] {
      assert fs[..0] == [];
    } else {
      var n := |fs| - 1;
      var (before, f) := (fs[..n], fs[n]);
      GainedExactly(before);
      assert fs == before + [f];
      if Gained(before).Some? {
        var k: nat :| NamedAt(before, k) && ToolFor(before, k, Gained(before).value);
        StillNamed(before, f, k, Gained(before).value);
      } else {
        NamedNow(before, f);
      }
    }
  }

  lemma PrefixesOf(before: seq<Fragment>, f: Fragment)
    ensures forall j :: 0 <= j <= |before| ==> (before + [f])[..j] == before[..j]
    ensures (before + [f])[..|before| + 1] == before + [f]
  {
  }

  lemma StillNamed(before: seq<Fragment>, f: Fragment, k: nat, t: Tool)
    requires NamedAt(before, k) && ToolFor(before, k, t)
    ensures NamedAt(before + [f], k) && ToolFor(before + [f], k, t.(input := t.input + ArgumentsFrom(f)))
    ensures !NeverNamed(before + [f])
  {
    PrefixesOf(before, f);
    assert (before + [f])[k - 1..] == before[k - 1..] + [f];
    assert (before[k - 1..] + [f])[..|before| - (k - 1)] == before[k - 1..];
  }

  lemma NamedNow(before: seq<Fragment>, f: Fragment)
    requires NeverNamed(before)
    ensures var fs := before + [f];
            if NameSoFar(fs) != "" then
              && NamedAt(fs, |fs|) && ToolFor(fs, |fs|, Tool(IdSoFar(fs), NameSoFar(fs), ArgumentsFrom(f)))
              && !NeverNamed(fs)
            else NeverNamed(fs)
  {
    PrefixesOf(before, f);
    FlatMapOne(ArgumentsFrom, f);
    assert (before + [f])[|before|..] == [f];
  }

  // ----- the converter and the client keep step -----

  /** Slot i of the converter and block i + 1 of the client, against the slot's own fragments. */
  ghost predicate SlotIs(slots: seq<ToolCallState>, tools: map<nat, Tool>, mine: seq<Fragment>, i: nat)
  {
    && (i < |slots| ==> KnownAs(slots[i], mine))
    && (i >= |slots| ==> mine == [])
    && (i + 1 in tools <==> Gained(mine).Some?)
    && (i + 1 in tools ==> tools[i + 1] == Gained(mine).value)
  }

  ghost predicate KnownAs(t: ToolCallState, mine: seq<Fragment>)
  {
    t.id == IdSoFar(mine) && t.name == NameSoFar(mine) && (t.blockStarted <==> Gained(mine).Some?)
  }

  ghost predicate SlotsAre(slots: seq<ToolCallState>, tools: map<nat, Tool>, fs: seq<Fragment>)
  {
    && 0 !in tools
    && forall i: nat :: SlotIs(slots, tools, OfSlot(fs, i), i)
  }

  /** What a step changes besides tool uses. */
  function Rest(r: Reply): (string, seq<Stop>, seq<nat>)
  {
    (r.text, r.stops, r.starts)
  }

  lemma OfSlotMore(fs: seq<Fragment>, f: Fragment, i: nat)
    ensures OfSlot(fs + [f], i) == if f.index.UnwrapOr(0) == i then OfSlot(fs, i) + [f] else OfSlot(fs, i)
  {
    assert (fs + [f])[..|fs|] == fs;
    NoMore(OfSlot(fs, i));
  }

  lemma GainedMore(mine: seq<Fragment>, f: Fragment)
    ensures var all := mine + [f];
            && Gained(all) == (match Gained(mine)
                               case Some(t) => Some(t.(input := t.input + ArgumentsFrom(f)))
                               case None => if NameSoFar(all) != "" then Some(Tool(IdSoFar(all), NameSoFar(all), ArgumentsFrom(f)))
                                            else None)
            && IdSoFar(all) == f.id.UnwrapOr(IdSoFar(mine))
            && NameSoFar(all) == NameIn(f).UnwrapOr(NameSoFar(mine))
  {
    assert (mine + [f])[..|mine|] == mine;
  }

  lemma ReadsStop(log: seq<Event>, i: nat)
    ensures ReadAll(log + [BlockStop(i)]) == ReadAll(log)
  {
    ReadMore(log, BlockStop(i));
  }

  lemma ReadsToolStart(log: seq<Event>, i: nat, id: string, name: string)
    ensures var r := ReadAll(log); ReadAll(log + [ToolStart(i, id, name)]) == r.(tools := r.tools[i := Tool(id, name, "")])
  {
    ReadMore(log, ToolStart(i, id, name));
  }

  function WithInput(tools: map<nat, Tool>, i: nat, more: string): map<nat, Tool>
  {
    if i in tools then tools[i := tools[i].(input := tools[i].input + more)] else tools
  }

  lemma ReadsJson(log: seq<Event>, i: nat, partial: string)
    ensures var r := ReadAll(log); ReadAll(log + [JsonDelta(i, partial)]) == r.(tools := WithInput(r.tools, i, partial))
  {
    ReadMore(log, JsonDelta(i, partial));
  }

  /** A slot after its block was started, if it has a name. */
  function Started(t: ToolCallState): ToolCallState
  {
    t.(blockStarted := t.blockStarted || t.name != "")
  }

  function WithStart(tools: map<nat, Tool>, t: ToolCallState, i: nat): map<nat, Tool>
  {
    if t.blockStarted || t.name == "" then tools else tools[i := Tool(t.id, t.name, "")]
  }

  lemma StartReads(s: OState, idx: nat)
    requires idx < |s.tools|
    ensures var r := ReadAll(s.log);
            && ReadAll(StartTool(s, idx).log) == r.(tools := WithStart(r.tools, s.tools[idx], idx + 1))
            && StartTool(s, idx).tools == s.tools[idx := Started(s.tools[idx])]
  {
    var t := s.tools[idx];
    if !t.blockStarted && t.name != "" {
      ReadsStop(s.log, 0);
      ReadsToolStart(CloseText(s).log, idx + 1, t.id, t.name);
    }
  }

  lemma ArgumentsRead(s: OState, idx: nat, args: Option<string>)
    requires idx < |s.tools|
    ensures var r := ReadAll(s.log);
            && ReadAll(StreamArguments(s, idx, args).log) ==
               r.(tools := if s.tools[idx].blockStarted then WithInput(r.tools, idx + 1, args.UnwrapOr("")) else r.tools)
            && StreamArguments(s, idx, args).tools == s.tools
  {
    var r := ReadAll(s.log);
    if args.UnwrapOr("") != "" {
      ReadsJson(s.log, idx + 1, args.value);
    } else if idx + 1 in r.tools {
      NoMore(r.tools[idx + 1].input);
      assert r.tools[idx + 1 := r.tools[idx + 1]] == r.tools;
    }
  }

  /** The slot a fragment is for, after it was merged. */
  function Merged(slots: seq<ToolCallState>, f: Fragment): ToolCallState
  {
    Absorb(if Slot(f) < |slots| then slots[Slot(f)] else ToolCallState(Slot(f), "", "", "", false), f)
  }

  /** What a fragment does to the client's tool uses. */
  function WithFragmentRead(tools: map<nat, Tool>, t: ToolCallState, f: Fragment): map<nat, Tool>
  {
    var started := WithStart(tools, t, Slot(f) + 1);
    if Started(t).blockStarted then WithInput(started, Slot(f) + 1, ArgumentsFrom(f)) else started
  }

  lemma FragmentEffect(s: OState, f: Fragment)
    ensures var (r, t, s') := (ReadAll(s.log), Merged(s.tools, f), StepFragment(s, f));
            && ReadAll(s'.log) == r.(tools := WithFragmentRead(r.tools, t, f))
            && s'.tools == GrownWith(s.tools, Slot(f), Started(t))
  {
    MergedIn(s, f);
    MergedEffect(WithFragment(s, f), Merged(s.tools, f), f);
  }

  lemma MergedEffect(s: OState, t: ToolCallState, f: Fragment)
    requires Slot(f) < |s.tools| && s.tools[Slot(f)] == t
    ensures var (r, s') := (ReadAll(s.log), StreamArguments(StartTool(s, Slot(f)), Slot(f), ArgumentsIn(f)));
            && ReadAll(s'.log) == r.(tools := WithFragmentRead(r.tools, t, f))
            && s'.tools == s.tools[Slot(f) := Started(t)]
  {
    StartReads(s, Slot(f));
    ArgumentsRead(StartTool(s, Slot(f)), Slot(f), ArgumentsIn(f));
  }

  /** The slots with room for slot i, and `t` in it. */
  function GrownWith(slots: seq<ToolCallState>, i: nat, t: ToolCallState): seq<ToolCallState>
  {
    var size := if i < |slots| then |slots| else i + 1;
    seq(size, k requires 0 <= k < size =>
      if k == i then t else if k < |slots| then slots[k] else ToolCallState(k, "", "", "", false))
  }

  lemma MergedIn(s: OState, f: Fragment)
    ensures WithFragment(s, f) == s.(tools := GrownWith(s.tools, Slot(f), Merged(s.tools, f)))
    ensures GrownWith(s.tools, Slot(f), Merged(s.tools, f))[Slot(f) := Started(Merged(s.tools, f))]
         == GrownWith(s.tools, Slot(f), Started(Merged(s.tools, f)))
  {
    GrowLength(s.tools, Slot(f) + 1);
    assert WithFragment(s, f).tools == GrownWith(s.tools, Slot(f), Merged(s.tools, f));
  }

  /** The fragment's own slot. */
  lemma OwnSlot(slots: seq<ToolCallState>, tools: map<nat, Tool>, mine: seq<Fragment>, f: Fragment, slots': seq<ToolCallState>)
    requires SlotIs(slots, tools, mine, Slot(f))
    requires Slot(f) < |slots'| && slots'[Slot(f)] == Started(Merged(slots, f))
    ensures SlotIs(slots', WithFragmentRead(tools, Merged(slots, f), f), mine + [f], Slot(f))
  {
    GainedMore(mine, f);
    assert "" + ArgumentsFrom(f) == ArgumentsFrom(f);
  }

  /** Any other slot. */
  lemma OtherSlot(slots: seq<ToolCallState>, tools: map<nat, Tool>, mine: seq<Fragment>, f: Fragment,
                  slots': seq<ToolCallState>, i: nat)
    requires SlotIs(slots, tools, mine, i) && i != Slot(f) && |slots| <= |slots'|
    requires i < |slots'| ==> slots'[i] == if i < |slots| then slots[i] else ToolCallState(i, "", "", "", false)
    ensures SlotIs(slots', WithFragmentRead(tools, Merged(slots, f), f), mine, i)
  {
  }

  lemma FragmentReads(s: OState, f: Fragment, fs: seq<Fragment>)
    requires SlotsAre(s.tools, ReadAll(s.log).tools, fs)
    ensures SlotsAre(StepFragment(s, f).tools, ReadAll(StepFragment(s, f).log).tools, fs + [f])
    ensures Rest(ReadAll(StepFragment(s, f).log)) == Rest(ReadAll(s.log))
  {
    FragmentEffect(s, f);
    SlotsMore(s.tools, ReadAll(s.log).tools, fs, f, StepFragment(s, f).tools);
  }

  lemma SlotsMore(slots: seq<ToolCallState>, tools: map<nat, Tool>, fs: seq<Fragment>, f: Fragment,
                  slots': seq<ToolCallState>)
    requires SlotsAre(slots, tools, fs)
    requires slots' == GrownWith(slots, Slot(f), Started(Merged(slots, f)))
    ensures SlotsAre(slots', WithFragmentRead(tools, Merged(slots, f), f), fs + [f])
  {
    forall i: nat ensures SlotIs(slots', WithFragmentRead(tools, Merged(slots, f), f), OfSlot(fs + [f], i), i) {
      OfSlotMore(fs, f, i);
      assert SlotIs(slots, tools, OfSlot(fs, i), i);
      if i == Slot(f) {
        OwnSlot(slots, tools, OfSlot(fs, i), f, slots');
      } else {
        OtherSlot(slots, tools, OfSlot(fs, i), f, slots', i);
      }
    }
  }

  lemma {:induction false} FragmentsRead(s: OState, more: seq<Fragment>, fs: seq<Fragment>)
    requires SlotsAre(s.tools, ReadAll(s.log).tools, fs)
    ensures SlotsAre(StepFragments(s, more).tools, ReadAll(StepFragments(s, more).log).tools, fs + more)
    ensures Rest(ReadAll(StepFragments(s, more).log)) == Rest(ReadAll(s.log))
  {
    if more == [] {
      NoMore(fs);
    } else {
      var k := |more| - 1;
      FragmentsRead(s, more[..k], fs);
      assert more == more[..k] + [more[k]];
      Regroup(fs, more[..k], [more[k]]);
      FragmentReads(StepFragments(s, more[..k]), more[k], fs + more[..k]);
    }
  }

  // ----- what ends a stream -----

  /** The finish reason of a choice, or None for `[DONE]`, and the completion tokens reported by then. */
  datatype End = End(finish: Option<string>, tokens: nat)

  /** What the Messages API calls this finish reason. */
  predicate MeansStop(finish: string, stop: string)
  {
    && (finish == "stop" ==> stop == "end_turn")
    && (finish == "tool_calls" ==> stop == "tool_use")
    && (finish == "length" ==> stop == "max_tokens")
    && (finish != "stop" && finish != "tool_calls" && finish != "length" ==> stop == finish)
  }

  predicate StopFor(stop: Stop, end: End)
  {
    && stop.outputTokens == end.tokens
    && (end.finish.None? ==> stop.reason == "end_turn")
    && (end.finish.Some? ==> MeansStop(end.finish.value, stop.reason))
  }

  predicate StopsFor(stops: seq<Stop>, ends: seq<End>)
  {
    |stops| == |ends| && forall i :: 0 <= i < |ends| ==> StopFor(stops[i], ends[i])
  }

  function ChoiceEnds(tokens: nat): Choice -> seq<End>
  {
    (c: Choice) => if c.delta.Some? && c.finishReason.Some? then [End(c.finishReason, tokens)] else []
  }

  function LineEnds(line: Line, tokens: nat): seq<End>
  {
    if line == Done then [End(None, tokens)] else FlatMap(ChoiceEnds(tokens), ChoicesOf(line))
  }

  /** Every end of the stream, in order. */
  function EndsOf(lines: seq<Line>): seq<End>
  {
    if lines == [] then []
    else EndsOf(lines[..|lines| - 1]) + LineEnds(lines[|lines| - 1], CompletionTokens(lines))
  }

  // ----- choice by choice -----

  /** The client has read this text, these fragments and these ends. */
  ghost predicate HasRead(s: OState, text: string, fs: seq<Fragment>, ends: seq<End>, starts: seq<nat>)
  {
    var r := ReadAll(s.log);
    r.text == text && SlotsAre(s.tools, r.tools, fs) && StopsFor(r.stops, ends) && r.starts == starts
  }

  lemma TextReads(s: OState, content: Option<string>)
    ensures var r := ReadAll(s.log);
            && ReadAll(StepText(s, content).log) == r.(text := r.text + content.UnwrapOr(""))
            && StepText(s, content).tools == s.tools && StepText(s, content).outputTokens == s.outputTokens
  {
    var r := ReadAll(s.log);
    if content.UnwrapOr("") == "" {
      NoMore(r.text);
    } else {
      ReadsTextStart(s.log);
      var s1 := if s.contentBlockOpen then s else Emit(s.(contentBlockOpen := true), TextStart());
      ReadsText(s1.log, content.value);
    }
  }

  lemma ReadsTextStart(log: seq<Event>)
    ensures ReadAll(log + [TextStart()]) == ReadAll(log)
  {
    ReadMore(log, TextStart());
  }

  lemma ReadsText(log: seq<Event>, text: string)
    ensures var r := ReadAll(log); ReadAll(log + [TextDelta(text)]) == r.(text := r.text + text)
  {
    ReadMore(log, TextDelta(text));
  }

  lemma {:induction false} StopsRead(log: seq<Event>, slots: seq<ToolCallState>)
    ensures ReadAll(log + Stops(slots)) == ReadAll(log)
  {
    if slots == [] {
      NoMore(log);
    } else {
      var k := |slots| - 1;
      StopsRead(log, slots[..k]);
      if slots[k].blockStarted {
        Regroup(log, Stops(slots[..k]), [BlockStop(slots[k].index + 1)]);
        ReadsStop(log + Stops(slots[..k]), slots[k].index + 1);
      } else {
        NoMore(Stops(slots[..k]));
      }
    }
  }

  lemma CloseAllReads(s: OState)
    ensures ReadAll(CloseAll(s).log) == ReadAll(s.log) && CloseAll(s).tools == s.tools
  {
    ReadsStop(s.log, 0);
    StopsRead(CloseText(s).log, CloseText(s).tools);
  }

  lemma EndReads(s: OState, stop: string)
    ensures var r := ReadAll(s.log);
            ReadAll(Emit(CloseAll(s), MessageDelta(stop, s.outputTokens)).log) ==
            r.(stops := r.stops + [Stop(stop, s.outputTokens)])
  {
    CloseAllReads(s);
    ReadMore(CloseAll(s).log, MessageDelta(stop, s.outputTokens));
  }

  lemma ReasonMeans(finish: string)
    ensures MeansStop(finish, StopReason(finish))
  {
  }

  lemma {:induction false} FragmentsKeepTokens(s: OState, fs: seq<Fragment>)
    ensures StepFragments(s, fs).outputTokens == s.outputTokens
  {
    if fs != [] { FragmentsKeepTokens(s, fs[..|fs| - 1]); }
  }

  lemma DeltaReads(s: OState, d: Delta, text: string, fs: seq<Fragment>, ends: seq<End>, starts: seq<nat>)
    requires HasRead(s, text, fs, ends, starts)
    ensures HasRead(StepDelta(s, d), text + d.content.UnwrapOr(""), fs + d.toolCalls.UnwrapOr([]), ends, starts)
    ensures StepDelta(s, d).outputTokens == s.outputTokens
  {
    var s1 := StepText(s, d.content);
    TextReads(s, d.content);
    FragmentsRead(s1, d.toolCalls.UnwrapOr([]), fs);
    FragmentsKeepTokens(s1, d.toolCalls.UnwrapOr([]));
  }

  lemma FinishReads(s: OState, finish: Option<string>, text: string, fs: seq<Fragment>, ends: seq<End>, starts: seq<nat>)
    requires HasRead(s, text, fs, ends, starts)
    ensures HasRead(StepFinish(s, finish), text, fs,
                    ends + (if finish.Some? then [End(finish, s.outputTokens)] else []), starts)
    ensures StepFinish(s, finish).outputTokens == s.outputTokens
  {
    if finish.Some? {
      var stop := StopReason(finish.value);
      EndReads(s, stop);
      ReasonMeans(finish.value);
      CloseAllReads(s);
      StopReads(s, StepFinish(s, finish), text, fs, ends, starts, Stop(stop, s.outputTokens), End(finish, s.outputTokens));
    } else {
      NoMore(ends);
    }
  }

  /** One more stop, and nothing else. */
  lemma StopReads(s: OState, s': OState, text: string, fs: seq<Fragment>, ends: seq<End>, starts: seq<nat>,
                  stop: Stop, end: End)
    requires HasRead(s, text, fs, ends, starts) && StopFor(stop, end) && s'.tools == s.tools
    requires var r := ReadAll(s.log); ReadAll(s'.log) == r.(stops := r.stops + [stop])
    ensures HasRead(s', text, fs, ends + [end], starts)
  {
  }

  lemma ChoiceReads(s: OState, c: Choice, text: string, fs: seq<Fragment>, ends: seq<End>, starts: seq<nat>)
    requires HasRead(s, text, fs, ends, starts)
    ensures HasRead(StepChoice(s, c), text + ChoiceText(c), fs + ChoiceFragments(c),
                    ends + ChoiceEnds(s.outputTokens)(c), starts)
    ensures StepChoice(s, c).outputTokens == s.outputTokens
  {
    if c.delta.Some? {
      DeltaReads(s, c.delta.value, text, fs, ends, starts);
      FinishReads(StepDelta(s, c.delta.value), c.finishReason, text + ChoiceText(c), fs + ChoiceFragments(c), ends, starts);
    } else {
      NoMore(text);
      NoMore(fs);
      NoMore(ends);
    }
  }

  lemma {:induction false} ChoicesRead(s: OState, cs: seq<Choice>, text: string, fs: seq<Fragment>, ends: seq<End>,
                                       starts: seq<nat>)
    requires HasRead(s, text, fs, ends, starts)
    ensures HasRead(StepChoices(s, cs), text + FlatMap(ChoiceText, cs), fs + FlatMap(ChoiceFragments, cs),
                    ends + FlatMap(ChoiceEnds(s.outputTokens), cs), starts)
    ensures StepChoices(s, cs).outputTokens == s.outputTokens
  {
    if cs == [] {
      NoMore(text);
      NoMore(fs);
      NoMore(ends);
    } else {
      var k := |cs| - 1;
      var e := ChoiceEnds(s.outputTokens);
      ChoicesRead(s, cs[..k], text, fs, ends, starts);
      ChoiceReads(StepChoices(s, cs[..k]), cs[k], text + FlatMap(ChoiceText, cs[..k]),
                  fs + FlatMap(ChoiceFragments, cs[..k]), ends + FlatMap(e, cs[..k]), starts);
      Regroup(text, FlatMap(ChoiceText, cs[..k]), ChoiceText(cs[k]));
      Regroup(fs, FlatMap(ChoiceFragments, cs[..k]), ChoiceFragments(cs[k]));
      Regroup(ends, FlatMap(e, cs[..k]), e(cs[k]));
    }
  }

  // ----- line by line -----

  lemma StartReadsOnce(s: OState, text: string, fs: seq<Fragment>, ends: seq<End>, starts: seq<nat>)
    requires HasRead(s, text, fs, ends, starts)
    ensures HasRead(StepStart(s), text, fs, ends, if s.started then starts else starts + [s.inputTokens])
    ensures StepStart(s).outputTokens == s.outputTokens
  {
    ReadMore(s.log, MessageStart(s.inputTokens));
  }

  lemma DoneReads(s: OState, text: string, fs: seq<Fragment>, ends: seq<End>, starts: seq<nat>)
    requires HasRead(s, text, fs, ends, starts)
    ensures HasRead(StepLine(s, Done), text, fs, ends + [End(None, s.outputTokens)], starts)
  {
    EndReads(s, "end_turn");
    CloseAllReads(s);
    ReadMore(Emit(CloseAll(s), MessageDelta("end_turn", s.outputTokens)).log, MESSAGE_STOP);
    StopReads(s, StepLine(s, Done), text, fs, ends, starts, Stop("end_turn", s.outputTokens), End(None, s.outputTokens));
  }

  lemma ChunkReads(s: OState, line: Line, text: string, fs: seq<Fragment>, ends: seq<End>, starts: seq<nat>)
    requires HasRead(s, text, fs, ends, starts) && line.Parsed?
    ensures var tokens := Begun(s, line).outputTokens;
            HasRead(StepLine(s, line), text + LineText(line), fs + LineFragments(line), ends + LineEnds(line, tokens),
                    if s.started then starts else starts + [UsageOf(line).promptTokens.UnwrapOr(s.inputTokens)])
  {
    var s0 := StepUsage(s, line.chunk.usage);
    StartReadsOnce(s0, text, fs, ends, starts);
    ChoicesRead(Begun(s, line), ChoicesOf(line), text, fs, ends,
                if s.started then starts else starts + [s0.inputTokens]);
  }

  /** The input tokens of the one `message_start`, once a chunk has been parsed. */
  ghost function StartsOf(lines: seq<Line>): seq<nat>
  {
    if AnyParsed(lines) then [PromptTokens(lines)] else []
  }

  lemma {:induction false} LinesRead(lines: seq<Line>)
    ensures AllRead(lines)
  {
    if lines == [] {
      NothingRead();
    } else {
      LinesRead(lines[..|lines| - 1]);
      LineReads(lines, lines[..|lines| - 1], lines[|lines| - 1]);
    }
  }

  ghost predicate AllRead(lines: seq<Line>)
  {
    HasRead(RunLines(lines), TextOf(lines), FragmentsOf(lines), EndsOf(lines), StartsOf(lines))
  }

  lemma NothingRead()
    ensures HasRead(O_INITIAL, "", [], [], [])
  {
  }

  lemma LineReads(all: seq<Line>, lines: seq<Line>, line: Line)
    requires AllRead(lines) && all != [] && lines == all[..|all| - 1] && line == all[|all| - 1]
    ensures AllRead(all)
  {
    var s := RunLines(lines);
    RunTold(lines);
    RunTold(all);
    AnyParsedStep(all);
    if line.Parsed? {
      ChunkReads(s, line, TextOf(lines), FragmentsOf(lines), EndsOf(lines), StartsOf(lines));
      BegunTold(s, line);
    } else {
      NoMore(TextOf(lines));
      NoMore(FragmentsOf(lines));
      NoMore(EndsOf(lines));
      if line == Done { DoneReads(s, TextOf(lines), FragmentsOf(lines), EndsOf(lines), StartsOf(lines)); }
    }
  }

  // ----- for every stream -----

  /** Block i + 1 of the client against the fragments that the stream has for slot i. */
  ghost predicate BlockFor(tools: map<nat, Tool>, fs: seq<Fragment>, i: nat)
  {
    if i + 1 in tools then exists k: nat :: NamedAt(fs, k) && ToolFor(fs, k, tools[i + 1])
    else NeverNamed(fs)
  }

  /** For every stream, its client reads all its text; as block i + 1, exactly if call i was ever named, that
      call with the id and name it had then and all its arguments since; one `message_start` with the prompt
      tokens of the first chunk; and for every end a stop reason with the completion tokens so far. */
  lemma ClientReads(lines: seq<Line>)
    ensures var r := ReadAll(RunLines(lines).log);
            && r.text == TextOf(lines)
            && 0 !in r.tools && (forall i: nat :: BlockFor(r.tools, OfSlot(FragmentsOf(lines), i), i))
            && r.starts == StartsOf(lines)
            && StopsFor(r.stops, EndsOf(lines))
  {
    LinesRead(lines);
    var s := RunLines(lines);
    var r := ReadAll(s.log);
    forall i: nat ensures BlockFor(r.tools, OfSlot(FragmentsOf(lines), i), i) {
      var mine := OfSlot(FragmentsOf(lines), i);
      assert SlotIs(s.tools, r.tools, mine, i);
      GainedExactly(mine);
    }
  }

  /** A chunk whose last choice has a delta and a finish reason ends the stream with a `message_delta`, which
      carries what the Messages API calls that reason. */
  lemma LastChoiceStops(lines: seq<Line>, last: Line)
    requires ChoicesOf(last) != [] && ChoicesOf(last)[|ChoicesOf(last)| - 1].delta.Some?
    requires ChoicesOf(last)[|ChoicesOf(last)| - 1].finishReason.Some?
    ensures var all := lines + [last];
            var log := RunLines(all).log;
            && log != [] && log[|log| - 1].kind == MessageDeltaType
            && log[|log| - 1].payload.delta.Some? && log[|log| - 1].payload.delta.value.stopReason.Some?
            && MeansStop(ChoicesOf(last)[|ChoicesOf(last)| - 1].finishReason.value,
                         log[|log| - 1].payload.delta.value.stopReason.value)
            && log[|log| - 1].payload.outputTokens == Some(CompletionTokens(all))
  {
    var all := lines + [last];
    var cs := ChoicesOf(last);
    var k := |cs| - 1;
    RunLast(lines, last);
    RunTold(all);
    var s := Begun(RunLines(lines), last);
    ChoicesTold(s, cs);
    ChoicesTold(s, cs[..k]);
    EndsWithDelta(StepChoices(s, cs[..k]), cs[k]);
    ReasonMeans(cs[k].finishReason.value);
  }

  lemma EndsWithDelta(s: OState, c: Choice)
    requires c.delta.Some? && c.finishReason.Some?
    ensures var log := StepChoice(s, c).log;
            log != [] && log[|log| - 1] == MessageDelta(StopReason(c.finishReason.value), s.outputTokens)
  {
    FragmentsKeepTokens(StepText(s, c.delta.value.content), c.delta.value.toolCalls.UnwrapOr([]));
  }
}
