/** What a client of an OpenAI stream assembles, and what one behind both converters of src/transform.rs
    has assembled after each Anthropic event between them. */
module StreamClients {
  import opened Wrappers
  import opened Lists
  import opened Streams

  // ----- what an OpenAI client assembles from a stream -----

  datatype Call = Call(id: string, name: string, arguments: string)

  datatype Message = Message(text: string, calls: seq<Call>, finish: Option<string>)

  const EMPTY := Message("", [], None)

  function GrowCalls(calls: seq<Call>, size: nat): (r: seq<Call>)
    ensures |r| == if |calls| >= size then |calls| else size
    ensures |calls| >= size ==> r == calls
    ensures |calls| + 1 == size ==> r == calls + [Call("", "", "")]
    ensures forall i :: 0 <= i < |r| ==> r[i] == if i < |calls| then calls[i] else Call("", "", "")
    decreases size - |calls|
  {
    if |calls| >= size then calls else GrowCalls(calls + [Call("", "", "")], size)
  }

  function Extend(c: Call, f: Fragment): Call
  {
    Call(f.id.UnwrapOr(c.id), NameIn(f).UnwrapOr(c.name), c.arguments + ArgumentsIn(f).UnwrapOr(""))
  }

  function CollectFragment(m: Message, f: Fragment): Message
  {
    var calls := GrowCalls(m.calls, Slot(f) + 1);
    m.(calls := calls[Slot(f) := Extend(calls[Slot(f)], f)])
  }

  function CollectFragments(m: Message, fs: seq<Fragment>): Message
  {
    if fs == [] then m else CollectFragment(CollectFragments(m, fs[..|fs| - 1]), fs[|fs| - 1])
  }

  function CollectDelta(m: Message, delta: Delta): Message
  {
    CollectFragments(m.(text := m.text + delta.content.UnwrapOr("")), delta.toolCalls.UnwrapOr([]))
  }

  function CollectFinish(m: Message, finish: Option<string>): Message
  {
    if m.finish.None? then m.(finish := finish) else m
  }

  function CollectChoice(m: Message, c: Choice): Message
  {
    CollectFinish(if c.delta.Some? then CollectDelta(m, c.delta.value) else m, c.finishReason)
  }

  function CollectChoices(m: Message, cs: seq<Choice>): Message
  {
    if cs == [] then m else CollectChoice(CollectChoices(m, cs[..|cs| - 1]), cs[|cs| - 1])
  }

  function CollectLine(m: Message, line: Line): Message
  {
    if line.Parsed? then CollectChoices(m, line.chunk.choices.UnwrapOr([])) else m
  }

  function Collect(lines: seq<Line>): Message
  {
    if lines == [] then EMPTY else CollectLine(Collect(lines[..|lines| - 1]), lines[|lines| - 1])
  }

  // ----- what the second converter makes of each event -----

  /** The tool index of the second converter, and what a client has assembled from its output. */
  function View(events: seq<Event>): (CallIndex, Message)
  {
    (RunEvents(events).toolCallIndex, Collect(RunEvents(events).log))
  }

  lemma CollectSingle(m: Message, delta: Delta, finish: Option<string>, usage: Option<Usage>)
    ensures CollectLine(m, ChunkLine(delta, finish, usage)) == CollectFinish(CollectDelta(m, delta), finish)
  {
    var c := Choice(Some(delta), finish);
    assert [c][..0] == [] && [c][0] == c;
    assert CollectChoices(m, [c]) == CollectChoice(CollectChoices(m, []), c);
  }

  lemma CollectCall(m: Message, f: Fragment)
    ensures CollectLine(m, CallChunk(f)) == CollectFragment(m, f)
  {
    CollectSingle(m, Delta(None, Some([f])), None, None);
    assert m.text + "" == m.text;
    assert [f][..0] == [];
    assert CollectFragments(m, [f]) == CollectFragment(CollectFragments(m, []), f);
  }

  lemma CollectNext(m: Message, f: Fragment)
    requires Slot(f) == |m.calls|
    ensures CollectFragment(m, f).calls
         == m.calls + [Call(f.id.UnwrapOr(""), NameIn(f).UnwrapOr(""), ArgumentsIn(f).UnwrapOr(""))]
  {
    assert "" + ArgumentsIn(f).UnwrapOr("") == ArgumentsIn(f).UnwrapOr("");
  }

  lemma CollectEmit(lines: seq<Line>, line: Line)
    ensures Collect(lines + [line]) == CollectLine(Collect(lines), line)
  {
    assert (lines + [line])[..|lines + [line]| - 1] == lines;
  }

  lemma ViewStep(events: seq<Event>, e: Event)
    ensures RunEvents(events + [e]) == StepEvent(RunEvents(events), e)
  {
    assert (events + [e])[..|events + [e]| - 1] == events;
  }

  lemma ViewText(events: seq<Event>, text: string)
    requires text != ""
    ensures View(events + [TextDelta(text)])
         == (View(events).0, View(events).1.(text := View(events).1.text + text))
  {
    ViewStep(events, TextDelta(text));
    CollectEmit(RunEvents(events).log, TextChunk(text));
    CollectSingle(View(events).1, Delta(Some(text), None), None, None);
  }

  lemma ViewToolStart(events: seq<Event>, index: nat, id: string, name: string)
    requires View(events).0 + 1 == |View(events).1.calls|
    ensures View(events + [ToolStart(index, id, name)])
         == (View(events).0 + 1, View(events).1.(calls := View(events).1.calls + [Call(id, name, "")]))
  {
    var (i, m) := View(events);
    var f := Fragment(Some(i + 1), Some(id), Some(Func(Some(name), Some(""))));
    ViewStep(events, ToolStart(index, id, name));
    CollectEmit(RunEvents(events).log, CallChunk(f));
    CollectCall(m, f);
    CollectNext(m, f);
  }

  /** More arguments for the latest call. */
  function AppendArguments(calls: seq<Call>, more: string): seq<Call>
  {
    if calls == [] then []
    else
      var n := |calls| - 1;
      calls[n := calls[n].(arguments := calls[n].arguments + more)]
  }

  lemma ViewJson(events: seq<Event>, index: nat, partial: string)
    requires partial != "" && 0 <= View(events).0 == |View(events).1.calls| - 1
    ensures View(events + [JsonDelta(index, partial)])
         == (View(events).0, View(events).1.(calls := AppendArguments(View(events).1.calls, partial)))
  {
    var (i, m) := View(events);
    var f := Fragment(Some(i), None, Some(Func(None, Some(partial))));
    ViewStep(events, JsonDelta(index, partial));
    CollectEmit(RunEvents(events).log, CallChunk(f));
    CollectCall(m, f);
  }

  // Four events change neither.

  lemma ViewBlockStop(events: seq<Event>, index: nat)
    ensures View(events + [BlockStop(index)]) == View(events)
  {
    ViewStep(events, BlockStop(index));
  }

  lemma ViewTextStart(events: seq<Event>)
    ensures View(events + [TextStart()]) == View(events)
  {
    ViewStep(events, TextStart());
  }

  lemma ViewMessageStart(events: seq<Event>, inputTokens: nat)
    ensures View(events + [MessageStart(inputTokens)]) == View(events)
  {
    ViewStep(events, MessageStart(inputTokens));
    var m := View(events).1;
    CollectEmit(RunEvents(events).log, ROLE_CHUNK);
    CollectSingle(m, Delta(Some(""), None), None, None);
    assert m.text + "" == m.text;
  }

  lemma ViewMessageStop(events: seq<Event>)
    ensures View(events + [MESSAGE_STOP]) == View(events)
  {
    ViewStep(events, MESSAGE_STOP);
    CollectEmit(RunEvents(events).log, Done);
  }

  lemma ViewFinish(events: seq<Event>, stop: string, out: nat)
    ensures View(events + [MessageDelta(stop, out)])
         == (View(events).0, CollectFinish(View(events).1, Some(FinishReason(stop))))
  {
    var a := RunEvents(events);
    ViewStep(events, MessageDelta(stop, out));
    CollectEmit(a.log, FinishChunk(FinishReason(stop), a.inputTokens, out));
    CollectSingle(View(events).1, Delta(None, None), Some(FinishReason(stop)), Some(Usage(Some(a.inputTokens), Some(out))));
    assert View(events).1.text + "" == View(events).1.text;
  }

  lemma {:induction false} ViewStops(events: seq<Event>, tools: seq<ToolCallState>)
    ensures View(events + Stops(tools)) == View(events)
  {
    if tools == [] {
      NoMore(events);
    } else {
      var k := |tools| - 1;
      ViewStops(events, tools[..k]);
      if tools[k].blockStarted {
        Regroup(events, Stops(tools[..k]), [BlockStop(tools[k].index + 1)]);
        ViewBlockStop(events + Stops(tools[..k]), tools[k].index + 1);
      } else {
        NoMore(Stops(tools[..k]));
      }
    }
  }

  lemma CloseAllView(s: OState)
    ensures View(CloseAll(s).log) == View(s.log)
  {
    ViewBlockStop(s.log, 0);
    ViewStops(CloseText(s).log, CloseText(s).tools);
  }
}
