/** Composing the two stream converters of src/transform.rs: what a client assembles from any OpenAI stream
    that was converted to Anthropic events and back, and exactly when that is what the stream said. */
module StreamRoundTrip {
  import opened Wrappers
  import opened Streams
  import opened StreamClients
  import opened StreamSurvey

  // ----- the converters do what the survey says -----

  /** A finish reason after both translations. */
  function Twice(finish: Option<string>): Option<string>
  {
    if finish.None? then None else Some(FinishReason(StopReason(finish.value)))
  }

  ghost predicate SameSlots(tools: seq<ToolCallState>, calls: seq<Call>)
  {
    && |tools| == |calls|
    && forall i :: 0 <= i < |tools| ==>
         (tools[i].id, tools[i].name, tools[i].arguments) == (calls[i].id, calls[i].name, calls[i].arguments)
  }

  ghost predicate SameStarted(tools: seq<ToolCallState>, named: seq<Naming>)
  {
    && (forall i :: 0 <= i < |tools| ==> (tools[i].blockStarted <==> IsNamed(named, i)))
    && (forall k :: 0 <= k < |named| ==> named[k].slot < |tools|)
  }

  /** What a client behind both converters has assembled, and that they agree on what comes next. */
  ghost predicate Shows(log: seq<Event>, text: string, calls: seq<Call>, heard: Option<string>)
  {
    View(log) == (|calls| - 1, Message(text, calls, Twice(heard)))
  }

  ghost predicate Follows(s: OState, v: Survey)
  {
    && SameSlots(s.tools, v.original.calls)
    && SameStarted(s.tools, v.named)
    && |v.client| == |v.named|
    && Shows(s.log, v.original.text, v.client, v.heard)
  }

  lemma CloseTextFollows(s: OState, v: Survey)
    requires Follows(s, v)
    ensures Follows(CloseText(s), v)
  {
    ViewBlockStop(s.log, 0);
  }

  lemma StepTextFollows(s: OState, v: Survey, content: Option<string>)
    requires Follows(s, v)
    ensures Follows(StepText(s, content), SurveyText(v, content))
  {
    var text := content.UnwrapOr("");
    if text == "" {
      assert v.original.text + text == v.original.text;
    } else {
      ViewTextStart(s.log);
      var s1 := if s.contentBlockOpen then s else Emit(s.(contentBlockOpen := true), TextStart());
      ViewText(s1.log, text);
    }
  }

  lemma MergeSlots(s: OState, m: Message, f: Fragment)
    requires SameSlots(s.tools, m.calls)
    ensures SameSlots(WithFragment(s, f).tools, CollectFragment(m, f).calls)
  {
    GrowLength(s.tools, Slot(f) + 1);
  }

  lemma MergeStarted(s: OState, named: seq<Naming>, f: Fragment)
    requires SameStarted(s.tools, named)
    ensures SameStarted(WithFragment(s, f).tools, named)
  {
    GrowLength(s.tools, Slot(f) + 1);
  }

  lemma NameOne(named: seq<Naming>, n: Naming)
    ensures forall i: nat :: IsNamed(named + [n], i) <==> IsNamed(named, i) || i == n.slot
  {
    forall i: nat ensures IsNamed(named + [n], i) <==> IsNamed(named, i) || i == n.slot {
      if IsNamed(named, i) {
        var k :| 0 <= k < |named| && named[k].slot == i;
        assert (named + [n])[k].slot == i;
      }
      assert (named + [n])[|named|] == n;
    }
  }

  /** Starting a block: the slots keep their contents, and the client sees a new call. */
  lemma StartFollows(s: OState, v: Survey, i: nat)
    requires Follows(s, v) && i < |s.tools|
    ensures var c := v.original.calls[i];
            Follows(StartTool(s, i),
                    if IsNamed(v.named, i) || c.name == "" then v
                    else v.(named := v.named + [Naming(i, c.id, c.name)], client := v.client + [Call(c.id, c.name, "")]))
  {
    var c := v.original.calls[i];
    if !IsNamed(v.named, i) && c.name != "" {
      CloseTextFollows(s, v);
      MarkStarted(s.tools, v.named, Naming(i, c.id, c.name));
      ViewToolStart(CloseText(s).log, i + 1, c.id, c.name);
    }
  }

  lemma MarkStarted(tools: seq<ToolCallState>, named: seq<Naming>, n: Naming)
    requires SameStarted(tools, named) && n.slot < |tools|
    ensures SameStarted(tools[n.slot := tools[n.slot].(blockStarted := true)], named + [n])
  {
    NameOne(named, n);
  }

  /** Arguments go to the client's latest call, whatever slot they are for. */
  lemma ArgumentsFollow(s: OState, v: Survey, i: nat, args: Option<string>)
    requires Follows(s, v) && i < |s.tools|
    ensures Follows(StreamArguments(s, i, args),
                    if args.UnwrapOr("") != "" && IsNamed(v.named, i)
                    then v.(client := AppendArguments(v.client, args.value)) else v)
  {
    if args.UnwrapOr("") != "" && IsNamed(v.named, i) {
      ViewJson(s.log, i + 1, args.value);
    }
  }

  lemma FragmentFollows(s: OState, v: Survey, f: Fragment)
    requires Follows(s, v)
    ensures Follows(StepFragment(s, f), SurveyFragment(v, f))
  {
    var s1 := WithFragment(s, f);
    var v1 := v.(original := CollectFragment(v.original, f));
    MergeSlots(s, v.original, f);
    MergeStarted(s, v.named, f);
    StartFollows(s1, v1, Slot(f));
    var v' := SurveyFragment(v, f);
    var c := v1.original.calls[Slot(f)];
    var v2 := if IsNamed(v.named, Slot(f)) || c.name == "" then v1
              else v1.(named := v.named + [Naming(Slot(f), c.id, c.name)], client := v.client + [Call(c.id, c.name, "")]);
    ArgumentsFollow(StartTool(s1, Slot(f)), v2, Slot(f), ArgumentsIn(f));
    assert v'.named == v2.named && v'.original == v2.original && v'.heard == v2.heard;
  }

  lemma {:induction false} FragmentsFollow(s: OState, v: Survey, fs: seq<Fragment>)
    requires Follows(s, v)
    ensures Follows(StepFragments(s, fs), SurveyFragments(v, fs))
  {
    if fs != [] {
      var k := |fs| - 1;
      FragmentsFollow(s, v, fs[..k]);
      FragmentFollows(StepFragments(s, fs[..k]), SurveyFragments(v, fs[..k]), fs[k]);
    }
  }

  /** Stops, and then a finish reason: the client hears it unless it heard one before. */
  lemma EndFollows(s: OState, v: Survey, reason: string)
    requires Follows(s, v)
    ensures Follows(Emit(CloseAll(s), MessageDelta(StopReason(reason), s.outputTokens)),
                    v.(heard := First(v.heard, Some(reason))))
  {
    CloseAllView(s);
    ViewFinish(CloseAll(s).log, StopReason(reason), s.outputTokens);
  }

  lemma FinishFollows(s: OState, v: Survey, finish: Option<string>)
    requires Follows(s, v)
    ensures Follows(StepFinish(s, finish), v.(heard := First(v.heard, finish)))
  {
    if finish.Some? { EndFollows(s, v, finish.value); }
  }

  lemma ChoiceFollows(s: OState, v: Survey, c: Choice)
    requires Follows(s, v)
    ensures Follows(StepChoice(s, c), SurveyChoice(v, c))
  {
    if c.delta.Some? {
      var d := c.delta.value;
      StepTextFollows(s, v, d.content);
      FragmentsFollow(StepText(s, d.content), SurveyText(v, d.content), d.toolCalls.UnwrapOr([]));
      var v1 := SurveyDelta(v, d);
      FinishFollows(StepDelta(s, d), v1, c.finishReason);
      SameAsBefore(StepChoice(s, c), v1.(heard := First(v1.heard, c.finishReason)), SurveyChoice(v, c));
    } else {
      SameAsBefore(s, v, SurveyChoice(v, c));
    }
  }

  /** What follows does not depend on the stream's own finish reason. */
  lemma SameAsBefore(s: OState, v: Survey, v': Survey)
    requires Follows(s, v) && v' == v.(original := v.original.(finish := v'.original.finish))
    ensures Follows(s, v')
  {
  }

  lemma {:induction false} ChoicesFollow(s: OState, v: Survey, cs: seq<Choice>)
    requires Follows(s, v)
    ensures Follows(StepChoices(s, cs), SurveyChoices(v, cs))
  {
    if cs != [] {
      var k := |cs| - 1;
      ChoicesFollow(s, v, cs[..k]);
      ChoiceFollows(StepChoices(s, cs[..k]), SurveyChoices(v, cs[..k]), cs[k]);
    }
  }

  lemma StartMessageFollows(s: OState, v: Survey)
    requires Follows(s, v)
    ensures Follows(StepStart(s), v)
  {
    ViewMessageStart(s.log, s.inputTokens);
  }

  lemma DoneFollows(s: OState, v: Survey)
    requires Follows(s, v)
    ensures Follows(StepLine(s, Done), SurveyLine(v, Done))
  {
    assert StopReason("stop") == "end_turn";
    EndFollows(s, v, "stop");
    ViewMessageStop(Emit(CloseAll(s), MessageDelta("end_turn", s.outputTokens)).log);
  }

  lemma LineFollows(s: OState, v: Survey, line: Line)
    requires Follows(s, v)
    ensures Follows(StepLine(s, line), SurveyLine(v, line))
  {
    match line
    case Done => DoneFollows(s, v);
    case Malformed =>
    case Parsed(chunk) =>
      StartMessageFollows(StepUsage(s, chunk.usage), v);
      ChoicesFollow(StepStart(StepUsage(s, chunk.usage)), v, chunk.choices.UnwrapOr([]));
  }

  lemma {:induction false} RunFollows(lines: seq<Line>)
    ensures Follows(RunLines(lines), SurveyLines(lines))
  {
    if lines != [] {
      var k := |lines| - 1;
      RunFollows(lines[..k]);
      LineFollows(RunLines(lines[..k]), SurveyLines(lines[..k]), lines[k]);
    }
  }

  // ----- the theorems -----

  /** What a client assembles from the twice-converted stream. */
  function Back(lines: seq<Line>): Message
  {
    Collect(RunEvents(RunLines(lines).log).log)
  }

  /** For every stream whatever, the client gets the stream's text, the calls the survey predicts, and
      the first finish reason the converters heard, translated twice. */
  lemma ClientGets(lines: seq<Line>)
    ensures var v := SurveyLines(lines);
            Back(lines) == Message(Collect(lines).text, v.client, Twice(v.heard))
  {
    RunFollows(lines);
    LinesOriginal(lines);
  }

  /** For every stream that names its calls in index order, whatever else it interleaves, the client gets
      the stream's calls if and only if arguments only ever went to the newest named call (naming fragments
      included), every call was named, and every call still has the id and name it had when first named. */
  lemma RoundTripExactly(lines: seq<Line>)
    requires SurveyLines(lines).inOrder
    ensures Back(lines).calls == Collect(lines).calls <==> CallsReturn(SurveyLines(lines))
  {
    ClientGets(lines);
    LinesOriginal(lines);
    LinesKept(lines);
    ClientKeepsCallsExactly(SurveyLines(lines));
  }

  /** A finish reason survives both translations unless it already is an Anthropic one. */
  lemma FinishSurvivesExactly(reason: string)
    ensures FinishReason(StopReason(reason)) == reason <==>
            reason != "end_turn" && reason != "tool_use" && reason != "max_tokens"
  {
    assert "stop"[0] != "end_turn"[0] && "tool_calls"[5] != "tool_use"[5] && "length"[0] != "max_tokens"[0];
    assert |"stop"| == 4 && |"tool_calls"| == 10 && |"length"| == 6;
    assert |"end_turn"| == 8 && |"tool_use"| == 8 && |"max_tokens"| == 10;
    assert "end_turn"[0] != "tool_use"[0] && "tool_calls"[0] != "max_tokens"[0];
  }

  // ----- streams whose calls come one after another -----

  /** Tool calls come one after another in index order, and a call is named in its first fragment:
      a fragment opens the next call with a name, or continues the latest call without changing its
      id or name. */
  predicate OrderlyFragment(m: Message, f: Fragment)
  {
    var n := |m.calls|;
    if Slot(f) == n then NameIn(f).UnwrapOr("") != ""
    else
      && Slot(f) + 1 == n
      && f.id.UnwrapOr(m.calls[n - 1].id) == m.calls[n - 1].id
      && NameIn(f).UnwrapOr(m.calls[n - 1].name) == m.calls[n - 1].name
  }

  predicate OrderlyFragments(m: Message, fs: seq<Fragment>)
  {
    fs == [] ||
    (OrderlyFragments(m, fs[..|fs| - 1]) &&
     OrderlyFragment(CollectFragments(m, fs[..|fs| - 1]), fs[|fs| - 1]))
  }

  predicate OrderlyChoice(m: Message, c: Choice)
  {
    && (c.delta.None? ==> c.finishReason.None?)
    && (c.delta.Some? ==>
          OrderlyFragments(m.(text := m.text + c.delta.value.content.UnwrapOr("")),
                           c.delta.value.toolCalls.UnwrapOr([])))
  }

  predicate OrderlyChoices(m: Message, cs: seq<Choice>)
  {
    cs == [] ||
    (OrderlyChoices(m, cs[..|cs| - 1]) && OrderlyChoice(CollectChoices(m, cs[..|cs| - 1]), cs[|cs| - 1]))
  }

  /** `[DONE]` ends the stream; everything before it is orderly. */
  predicate Orderly(lines: seq<Line>)
  {
    lines == [] ||
    var k := |lines| - 1;
    && Orderly(lines[..k])
    && (forall i :: 0 <= i < k ==> lines[i] != Done)
    && (lines[k].Parsed? ==> OrderlyChoices(Collect(lines[..k]), lines[k].chunk.choices.UnwrapOr([])))
  }

  /** So far the client has everything, and nothing waits for a name. */
  ghost predicate Intact(v: Survey)
  {
    && v.inOrder && CallsReturn(v) && v.heard == v.original.finish
    && forall k :: 0 <= k < |v.named| ==> v.named[k].slot == k && v.named[k].name != ""
  }

  lemma FragmentIntact(v: Survey, f: Fragment)
    requires Intact(v) && OrderlyFragment(v.original, f)
    ensures Intact(SurveyFragment(v, f))
  {
    NamedInOrder(v);
    if Slot(f) == |v.named| { NextIntact(v, f); } else { NewestIntact(v, f); }
  }

  lemma NextIntact(v: Survey, f: Fragment)
    requires Intact(v) && OrderlyFragment(v.original, f) && Slot(f) == |v.named| && !IsNamed(v.named, Slot(f))
    ensures Intact(SurveyFragment(v, f))
  {
    CollectNext(v.original, f);
  }

  lemma NewestIntact(v: Survey, f: Fragment)
    requires Intact(v) && OrderlyFragment(v.original, f) && Slot(f) + 1 == |v.named| && IsNamed(v.named, Slot(f))
    ensures Intact(SurveyFragment(v, f))
  {
  }

  lemma {:induction false} FragmentsIntact(v: Survey, fs: seq<Fragment>)
    requires Intact(v) && OrderlyFragments(v.original, fs)
    ensures Intact(SurveyFragments(v, fs))
  {
    if fs != [] {
      var k := |fs| - 1;
      FragmentsIntact(v, fs[..k]);
      FragmentsOriginal(v, fs[..k]);
      FragmentIntact(SurveyFragments(v, fs[..k]), fs[k]);
    }
  }

  lemma ChoiceIntact(v: Survey, c: Choice)
    requires Intact(v) && OrderlyChoice(v.original, c)
    ensures Intact(SurveyChoice(v, c))
  {
    if c.delta.Some? {
      FragmentsIntact(SurveyText(v, c.delta.value.content), c.delta.value.toolCalls.UnwrapOr([]));
    }
  }

  lemma {:induction false} ChoicesIntact(v: Survey, cs: seq<Choice>)
    requires Intact(v) && OrderlyChoices(v.original, cs)
    ensures Intact(SurveyChoices(v, cs))
  {
    if cs != [] {
      var k := |cs| - 1;
      ChoicesIntact(v, cs[..k]);
      ChoicesOriginal(v, cs[..k]);
      ChoiceIntact(SurveyChoices(v, cs[..k]), cs[k]);
    }
  }

  lemma {:induction false} LinesIntact(lines: seq<Line>)
    requires Orderly(lines) && forall i :: 0 <= i < |lines| ==> lines[i] != Done
    ensures Intact(SurveyLines(lines))
  {
    if lines != [] {
      var k := |lines| - 1;
      LinesIntact(lines[..k]);
      LinesOriginal(lines[..k]);
      if lines[k].Parsed? { ChoicesIntact(SurveyLines(lines[..k]), lines[k].chunk.choices.UnwrapOr([])); }
    }
  }

  /** Every such stream returns whole: the same text and the same calls with the same ids, names and full
      arguments; the finish reason is the first one of the stream, translated twice, or "stop" when only
      `[DONE]` came. */
  lemma RoundTrip(lines: seq<Line>)
    requires Orderly(lines)
    ensures var (original, back) := (Collect(lines), Back(lines));
            && back.text == original.text
            && back.calls == original.calls
            && (original.finish.Some? ==> back.finish == Twice(original.finish))
            && (original.finish.None? ==> back.finish == if Done in lines then Some("stop") else None)
  {
    ClientGets(lines);
    LinesOriginal(lines);
    OrderlyBeforeDone(lines);
    RoundTripExactly(lines);
  }

  lemma OrderlyBeforeDone(lines: seq<Line>)
    requires Orderly(lines)
    ensures var v := SurveyLines(lines);
            && v.inOrder && CallsReturn(v)
            && v.heard == First(v.original.finish, if Done in lines then Some("stop") else None)
  {
    if lines == [] || lines[|lines| - 1] != Done {
      LinesIntact(lines);
    } else {
      LinesIntact(lines[..|lines| - 1]);
    }
  }
}
