/** What a client of an OpenAI stream assembles from the lines made out of Anthropic events
    (src/transform.rs:559-682), for every sequence of events whatever. Events are read by their payloads, and
    lines as `StreamClients` reads them. */
module OpenAIClients {
  import opened Wrappers
  import opened Lists
  import opened Streams
  import opened StreamClients

  // ----- what the events say -----

  function TextIn(e: Event): string
  {
    var d := e.payload.delta;
    if e.kind == BlockDeltaType && d.Some? && d.value.kind == TextDeltaType then d.value.text.UnwrapOr("") else ""
  }

  function InputIn(e: Event): string
  {
    var d := e.payload.delta;
    if e.kind == BlockDeltaType && d.Some? && d.value.kind == InputJsonDeltaType then d.value.partialJson.UnwrapOr("") else ""
  }

  predicate StartsTool(e: Event)
  {
    e.kind == BlockStartType && e.payload.contentBlock.Some? && e.payload.contentBlock.value.kind == ToolUseBlock
  }

  predicate StopsMessage(e: Event)
  {
    e.kind == MessageDeltaType
  }

  function StopIn(e: Event): string
  {
    if e.payload.delta.Some? then e.payload.delta.value.stopReason.UnwrapOr("stop") else "stop"
  }

  /** What the chat completions API calls this stop reason. */
  predicate MeansFinish(stop: string, finish: string)
  {
    && (stop == "end_turn" ==> finish == "stop")
    && (stop == "tool_use" ==> finish == "tool_calls")
    && (stop == "max_tokens" ==> finish == "length")
    && (stop != "end_turn" && stop != "tool_use" && stop != "max_tokens" ==> finish == stop)
  }

  lemma FinishMeans(stop: string)
    ensures MeansFinish(stop, FinishReason(stop))
  {
  }

  /** The finish reason is that of the first event that stops the message. */
  ghost predicate FinishFrom(events: seq<Event>, finish: Option<string>)
  {
    if finish.None? then forall i :: 0 <= i < |events| ==> !StopsMessage(events[i])
    else exists i :: FirstStop(events, i) && MeansFinish(StopIn(events[i]), finish.value)
  }

  ghost predicate FirstStop(events: seq<Event>, i: int)
  {
    0 <= i < |events| && StopsMessage(events[i]) && forall j :: 0 <= j < i ==> !StopsMessage(events[j])
  }

  // ----- calls -----

  /** One call for each tool block that starts: its id and name, and all input until the next one starts. */
  ghost predicate CallsFrom(events: seq<Event>, calls: seq<Call>)
  {
    exists at :: Places(StartsTool, events, at) && |calls| == |at|
              && forall k :: 0 <= k < |at| ==> CallFrom(events, at, k, calls[k])
  }

  function Until(events: seq<Event>, at: seq<nat>, k: nat): nat
    requires k < |at|
  {
    if k + 1 < |at| then at[k + 1] else |events|
  }

  ghost predicate CallFrom(events: seq<Event>, at: seq<nat>, k: nat, c: Call)
    requires k < |at|
  {
    && at[k] < Until(events, at, k) <= |events| && StartsTool(events[at[k]])
    && c.id == events[at[k]].payload.contentBlock.value.id.UnwrapOr("")
    && c.name == events[at[k]].payload.contentBlock.value.name.UnwrapOr("")
    && c.arguments == FlatMap(InputIn, events[at[k] + 1..Until(events, at, k)])
  }

  /** The calls at these positions. */
  ghost predicate CallsAt(events: seq<Event>, at: seq<nat>, calls: seq<Call>)
  {
    && Places(StartsTool, events, at) && |calls| == |at|
    && forall k :: 0 <= k < |at| ==> CallFrom(events, at, k, calls[k])
  }

  lemma EarlierCall(events: seq<Event>, e: Event, at: seq<nat>, k: nat, c: Call, more: seq<nat>)
    requires k < |at| && CallFrom(events, at, k, c) && k + 1 < |at + more|
    requires more != [] ==> more[0] == |events|
    ensures CallFrom(events + [e], at + more, k, c)
  {
    var (all, next) := (events + [e], Until(events, at, k));
    assert Until(all, at + more, k) == next;
    assert all[at[k] + 1..next] == events[at[k] + 1..next];
  }

  lemma LatestCall(events: seq<Event>, e: Event, at: seq<nat>, c: Call)
    requires at != [] && CallFrom(events, at, |at| - 1, c)
    ensures CallFrom(events + [e], at, |at| - 1, c.(arguments := c.arguments + InputIn(e)))
  {
    var i := at[|at| - 1];
    LastSlice(events, e, i + 1);
    FlatMapNext(InputIn, events[i + 1..|events|], e);
  }

  lemma NewCall(events: seq<Event>, e: Event, at: seq<nat>)
    requires StartsTool(e)
    ensures CallFrom(events + [e], at + [|events|], |at|,
                     Call(e.payload.contentBlock.value.id.UnwrapOr(""), e.payload.contentBlock.value.name.UnwrapOr(""), ""))
  {
    assert (events + [e])[|events| + 1..|events| + 1] == [];
  }

  lemma PlacesNext(events: seq<Event>, e: Event, at: seq<nat>)
    requires Places(StartsTool, events, at)
    ensures Places(StartsTool, events + [e], if StartsTool(e) then at + [|events|] else at)
  {
    assert (events + [e])[..|events|] == events;
    PlacesMore(StartsTool, events + [e], at, if StartsTool(e) then at + [|events|] else at);
  }

  /** One more event. */
  function GrownCalls(calls: seq<Call>, e: Event): seq<Call>
  {
    if StartsTool(e) then
      calls + [Call(e.payload.contentBlock.value.id.UnwrapOr(""), e.payload.contentBlock.value.name.UnwrapOr(""), "")]
    else AppendArguments(calls, InputIn(e))
  }

  lemma CallsNext(events: seq<Event>, e: Event, at: seq<nat>, calls: seq<Call>)
    requires CallsAt(events, at, calls)
    ensures CallsAt(events + [e], if StartsTool(e) then at + [|events|] else at, GrownCalls(calls, e))
  {
    PlacesNext(events, e, at);
    if StartsTool(e) { StartedCall(events, e, at, calls); } else { GrownCall(events, e, at, calls); }
  }

  lemma StartedCall(events: seq<Event>, e: Event, at: seq<nat>, calls: seq<Call>)
    requires CallsAt(events, at, calls) && StartsTool(e)
    ensures forall k :: 0 <= k <= |at| ==> CallFrom(events + [e], at + [|events|], k, GrownCalls(calls, e)[k])
  {
    forall k | 0 <= k <= |at| ensures CallFrom(events + [e], at + [|events|], k, GrownCalls(calls, e)[k]) {
      if k == |at| { NewCall(events, e, at); } else { EarlierCall(events, e, at, k, calls[k], [|events|]); }
    }
  }

  lemma GrownCall(events: seq<Event>, e: Event, at: seq<nat>, calls: seq<Call>)
    requires CallsAt(events, at, calls) && !StartsTool(e)
    ensures forall k :: 0 <= k < |at| ==> CallFrom(events + [e], at, k, GrownCalls(calls, e)[k])
  {
    NoMore(at);
    forall k | 0 <= k < |at| ensures CallFrom(events + [e], at, k, GrownCalls(calls, e)[k]) {
      if k + 1 < |at| { EarlierCall(events, e, at, k, calls[k], []); } else { LatestCall(events, e, at, calls[k]); }
    }
  }

  // ----- the converter and the client keep step -----

  ghost predicate Shown(a: AState, text: string, calls: seq<Call>)
  {
    a.toolCallIndex == |calls| - 1 && Collect(a.log).text == text && Collect(a.log).calls == calls
  }

  lemma TextShown(a: AState, text: string)
    ensures var m := Collect(a.log);
            Collect(EmitLine(a, ChunkLine(Delta(Some(text), None), None, None)).log) == m.(text := m.text + text)
  {
    CollectEmit(a.log, ChunkLine(Delta(Some(text), None), None, None));
    CollectSingle(Collect(a.log), Delta(Some(text), None), None, None);
  }

  lemma CallShown(a: AState, f: Fragment)
    ensures Collect(EmitLine(a, CallChunk(f)).log) == CollectFragment(Collect(a.log), f)
  {
    CollectEmit(a.log, CallChunk(f));
    CollectCall(Collect(a.log), f);
  }

  lemma FinishShown(a: AState, reason: string, i: nat, o: nat)
    ensures Collect(EmitLine(a, FinishChunk(reason, i, o)).log) == CollectFinish(Collect(a.log), Some(reason))
  {
    CollectEmit(a.log, FinishChunk(reason, i, o));
    CollectSingle(Collect(a.log), Delta(None, None), Some(reason), Some(Usage(Some(i), Some(o))));
    NoMore(Collect(a.log).text);
  }

  lemma InputShown(a: AState, text: string, calls: seq<Call>, partial: string)
    requires Shown(a, text, calls)
    ensures var a' := if partial == "" || a.toolCallIndex < 0 then a
                      else EmitLine(a, CallChunk(Fragment(Some(a.toolCallIndex), None, Some(Func(None, Some(partial))))));
            && Shown(a', text, AppendArguments(calls, partial)) && Collect(a'.log).finish == Collect(a.log).finish
  {
    if calls != [] {
      var n := |calls| - 1;
      NoMore(calls[n].arguments);
      assert partial == "" ==> calls[n := calls[n]] == calls;
      CallShown(a, Fragment(Some(n), None, Some(Func(None, Some(partial)))));
    }
  }

  lemma StartShown(a: AState, text: string, calls: seq<Call>, id: string, name: string)
    requires Shown(a, text, calls)
    ensures var a1 := a.(toolCallIndex := a.toolCallIndex + 1);
            var a' := EmitLine(a1, CallChunk(Fragment(Some(a1.toolCallIndex), Some(id), Some(Func(Some(name), Some(""))))));
            && Shown(a', text, calls + [Call(id, name, "")]) && Collect(a'.log).finish == Collect(a.log).finish
  {
    var a1 := a.(toolCallIndex := a.toolCallIndex + 1);
    var f := Fragment(Some(a1.toolCallIndex), Some(id), Some(Func(Some(name), Some(""))));
    CallShown(a1, f);
    CollectNext(Collect(a.log), f);
  }

  /** What one event adds. */
  lemma EventShown(a: AState, e: Event, text: string, calls: seq<Call>)
    requires Shown(a, text, calls)
    ensures Shown(StepEvent(a, e), text + TextIn(e), GrownCalls(calls, e))
    ensures !StopsMessage(e) ==> Collect(StepEvent(a, e).log).finish == Collect(a.log).finish
  {
    NoMore(text);
    InputShown(a, text, calls, "");
    if e.kind == BlockDeltaType && e.payload.delta.Some? {
      DeltaShown(a, e, e.payload.delta.value, text, calls);
    } else {
      OtherShown(a, e, text, calls);
    }
  }

  lemma DeltaShown(a: AState, e: Event, d: EventDelta, text: string, calls: seq<Call>)
    requires Shown(a, text, calls) && AppendArguments(calls, "") == calls
    requires e.kind == BlockDeltaType && e.payload.delta == Some(d)
    ensures Shown(StepEvent(a, e), text + TextIn(e), GrownCalls(calls, e))
    ensures Collect(StepEvent(a, e).log).finish == Collect(a.log).finish
  {
    NoMore(text);
    match d.kind
    case TextDeltaType => TextShown(a, d.text.UnwrapOr(""));
    case InputJsonDeltaType => InputShown(a, text, calls, d.partialJson.UnwrapOr(""));
    case OtherDelta =>
  }

  lemma OtherShown(a: AState, e: Event, text: string, calls: seq<Call>)
    requires Shown(a, text, calls) && AppendArguments(calls, "") == calls
    requires e.kind != BlockDeltaType || e.payload.delta.None?
    ensures Shown(StepEvent(a, e), text, GrownCalls(calls, e))
    ensures !StopsMessage(e) ==> Collect(StepEvent(a, e).log).finish == Collect(a.log).finish
  {
    match e.kind
    case MessageStartType =>
      TextShown(a, "");
      NoMore(text);
    case BlockStartType =>
      if StartsTool(e) {
        var b := e.payload.contentBlock.value;
        StartShown(a, text, calls, b.id.UnwrapOr(""), b.name.UnwrapOr(""));
      }
    case MessageDeltaType =>
      FinishShown(a, FinishReason(StopIn(e)), a.inputTokens, e.payload.outputTokens.UnwrapOr(a.outputTokens));
    case MessageStopType => CollectEmit(a.log, Done);
    case BlockDeltaType => NoMore(text);
    case BlockStopType =>
    case OtherEvent =>
  }

  lemma StopShown(a: AState, e: Event)
    requires StopsMessage(e)
    ensures Collect(StepEvent(a, e).log).finish == First(Collect(a.log).finish, FinishReason(StopIn(e)))
  {
    FinishShown(a, FinishReason(StopIn(e)), a.inputTokens, e.payload.outputTokens.UnwrapOr(a.outputTokens));
  }

  function First(finish: Option<string>, reason: string): Option<string>
  {
    if finish.None? then Some(reason) else finish
  }

  lemma FinishNext(events: seq<Event>, e: Event, finish: Option<string>, finish': Option<string>)
    requires FinishFrom(events, finish)
    requires !StopsMessage(e) || finish.Some? ==> finish' == finish
    requires StopsMessage(e) && finish.None? ==> finish'.Some? && MeansFinish(StopIn(e), finish'.value)
    ensures FinishFrom(events + [e], finish')
  {
    var all := events + [e];
    assert forall i :: 0 <= i < |events| ==> all[i] == events[i];
    if finish.Some? {
      var i :| FirstStop(events, i) && MeansFinish(StopIn(events[i]), finish.value);
      assert FirstStop(all, i);
    } else if StopsMessage(e) {
      assert FirstStop(all, |events|);
    }
  }

  /** The converter's state and its client's, after these events. */
  ghost predicate Assembled(events: seq<Event>, a: AState, at: seq<nat>, calls: seq<Call>)
  {
    && CallsAt(events, at, calls)
    && Shown(a, FlatMap(TextIn, events), calls)
    && FinishFrom(events, Collect(a.log).finish)
  }

  lemma EventNext(all: seq<Event>, events: seq<Event>, e: Event, a: AState, a': AState, at: seq<nat>, calls: seq<Call>)
    returns (at': seq<nat>, calls': seq<Call>)
    requires Assembled(events, a, at, calls) && all == events + [e] && a' == StepEvent(a, e)
    ensures Assembled(all, a', at', calls')
  {
    at', calls' := if StartsTool(e) then at + [|events|] else at, GrownCalls(calls, e);
    CallsNext(events, e, at, calls);
    EventShown(a, e, FlatMap(TextIn, events), calls);
    FlatMapNext(TextIn, events, e);
    if StopsMessage(e) {
      StopShown(a, e);
      FinishMeans(StopIn(e));
    }
    FinishNext(events, e, Collect(a.log).finish, Collect(StepEvent(a, e).log).finish);
  }

  lemma {:induction false} EventsShown(events: seq<Event>) returns (at: seq<nat>, calls: seq<Call>)
    ensures Assembled(events, RunEvents(events), at, calls)
  {
    if events == [] {
      at, calls := [], [];
    } else {
      var k := |events| - 1;
      var at0, calls0 := EventsShown(events[..k]);
      at, calls := EventNext(events, events[..k], events[k], RunEvents(events[..k]), RunEvents(events), at0, calls0);
    }
  }

  /** For every sequence of events, a client of the lines made of them assembles all text of text deltas; one call
      for each tool block that starts, with its id, its name and all input until the next one starts; and the finish
      reason of the first event that stops the message. */
  lemma ClientCollects(events: seq<Event>)
    ensures var m := Collect(RunEvents(events).log);
            m.text == FlatMap(TextIn, events) && CallsFrom(events, m.calls) && FinishFrom(events, m.finish)
  {
    var at, calls := EventsShown(events);
    assert CallsAt(events, at, Collect(RunEvents(events).log).calls);
  }

  // ----- usage -----

  /** The input tokens told last in a `message_start`. */
  function InputTokens(events: seq<Event>): nat
  {
    if events == [] then 0
    else
      var e := events[|events| - 1];
      if e.kind == MessageStartType && e.payload.inputTokens.Some? then e.payload.inputTokens.value
      else InputTokens(events[..|events| - 1])
  }

  /** The output tokens told last in a `message_delta`. */
  function OutputTokens(events: seq<Event>): nat
  {
    if events == [] then 0
    else
      var e := events[|events| - 1];
      if e.kind == MessageDeltaType && e.payload.outputTokens.Some? then e.payload.outputTokens.value
      else OutputTokens(events[..|events| - 1])
  }

  lemma {:induction false} TokensKept(events: seq<Event>)
    ensures RunEvents(events).inputTokens == InputTokens(events) && RunEvents(events).outputTokens == OutputTokens(events)
  {
    if events != [] { TokensKept(events[..|events| - 1]); }
  }

  /** A line that ends the stream: one choice with this finish reason, and usage. */
  ghost predicate Finishes(line: Line, stop: string, promptTokens: nat, completionTokens: nat)
  {
    && line.Parsed? && line.chunk.choices.Some? && |line.chunk.choices.value| == 1
    && line.chunk.choices.value[0].finishReason.Some?
    && MeansFinish(stop, line.chunk.choices.value[0].finishReason.value)
    && line.chunk.usage.Some?
    && line.chunk.usage.value.promptTokens == Some(promptTokens)
    && line.chunk.usage.value.completionTokens == Some(completionTokens)
  }

  /** After every sequence of events, one that stops the message makes one line, with the finish reason it means,
      the input tokens told last and the output tokens told last, its own included. */
  lemma FinishLineSays(events: seq<Event>, e: Event)
    requires StopsMessage(e)
    ensures var (before, after) := (RunEvents(events).log, RunEvents(events + [e]).log);
            && |after| == |before| + 1 && after[..|before|] == before
            && Finishes(after[|before|], StopIn(e), InputTokens(events), OutputTokens(events + [e]))
  {
    var all := events + [e];
    assert all[..|events|] == events;
    TokensKept(events);
    TokensKept(all);
    FinishMeans(StopIn(e));
  }

  /** A `message_start` makes one line, an empty text and nothing else; a `message_stop` makes `[DONE]`. */
  lemma StartAndStopLines(events: seq<Event>, e: Event)
    requires e.kind == MessageStartType || e.kind == MessageStopType
    ensures var (before, after) := (RunEvents(events).log, RunEvents(events + [e]).log);
            && |after| == |before| + 1 && after[..|before|] == before
            && (e.kind == MessageStopType ==> after[|before|] == Done)
            && (e.kind == MessageStartType ==>
                  after[|before|] == Parsed(Chunk(None, Some([Choice(Some(Delta(Some(""), None)), None)]))))
  {
    assert (events + [e])[..|events|] == events;
  }
}
