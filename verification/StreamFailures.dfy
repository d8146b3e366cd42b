/** Streams that the two converters of src/transform.rs do not bring back, each followed to its end. */
module StreamFailures {
  import opened Wrappers
  import opened Streams
  import opened StreamClients
  import opened StreamSurvey
  import opened StreamRoundTrip

  /** One line, one fragment. */
  lemma SurveyCall(lines: seq<Line>, f: Fragment)
    ensures SurveyLines(lines + [CallChunk(f)]) == SurveyFragment(SurveyLines(lines), f)
  {
    var (v, c) := (SurveyLines(lines), Choice(Some(Delta(None, Some([f]))), None));
    assert (lines + [CallChunk(f)])[..|lines|] == lines;
    SurveyOnly(v, c);
    assert [f][..0] == [] && [f][0] == f;
    assert v.original.text + "" == v.original.text;
    assert SurveyFragments(v, [f]) == SurveyFragment(SurveyFragments(v, []), f);
  }

  lemma SurveyOnly(v: Survey, c: Choice)
    ensures SurveyChoices(v, [c]) == SurveyChoice(v, c)
  {
    assert [c][..0] == [] && [c][0] == c;
  }

  lemma NotReturned(before: seq<Line>, after: seq<Line>)
    requires SurveyLines(before + after).inOrder && !SurveyLines(before).filed
    ensures Back(before + after).calls != Collect(before + after).calls
  {
    LinesStay(before, after);
    RoundTripExactly(before + after);
  }

  /** More arguments for a named call that is not the newest: the client adds them to its latest call
      instead, and whatever the stream says before and after, it never gets the stream's calls. */
  lemma EarlierCallMisfiled(before: seq<Line>, f: Fragment, after: seq<Line>)
    requires SurveyLines(before + [CallChunk(f)] + after).inOrder
    requires ArgumentsIn(f).UnwrapOr("") != ""
    requires IsNamed(SurveyLines(before).named, Slot(f)) && !IsNewest(SurveyLines(before).named, Slot(f))
    ensures Back(before + [CallChunk(f)]).calls == AppendArguments(Back(before).calls, ArgumentsIn(f).value)
    ensures Back(before + [CallChunk(f)] + after).calls != Collect(before + [CallChunk(f)] + after).calls
  {
    SurveyCall(before, f);
    ClientGets(before);
    ClientGets(before + [CallChunk(f)]);
    NotReturned(before + [CallChunk(f)], after);
  }

  /** Arguments for a call that is not named yet: the client never sees them, and whatever the stream says
      before and after, it never gets the stream's calls. */
  lemma ArgumentsBeforeNameUnsent(before: seq<Line>, f: Fragment, after: seq<Line>)
    requires SurveyLines(before + [CallChunk(f)] + after).inOrder
    requires ArgumentsIn(f).UnwrapOr("") != ""
    requires !IsNamed(SurveyLines(before + [CallChunk(f)]).named, Slot(f))
    ensures Back(before + [CallChunk(f)]).calls == Back(before).calls
    ensures Back(before + [CallChunk(f)] + after).calls != Collect(before + [CallChunk(f)] + after).calls
  {
    SurveyCall(before, f);
    ClientGets(before);
    ClientGets(before + [CallChunk(f)]);
    NewestIsNamed(SurveyLines(before + [CallChunk(f)]).named, Slot(f));
    NotReturned(before + [CallChunk(f)], after);
  }

  lemma NewestIsNamed(named: seq<Naming>, slot: nat)
    ensures IsNewest(named, slot) ==> IsNamed(named, slot)
  {
  }

  // ----- a concrete stream for each failure -----

  function Part(slot: nat, id: Option<string>, name: Option<string>, args: Option<string>): Fragment
  {
    Fragment(Some(slot), id, Some(Func(name, args)))
  }

  /** A finish reason and `[DONE]`. */
  const ENDING: seq<Line> := [ChunkLine(Delta(None, None), Some("tool_calls"), None), Done]

  ghost predicate Ends(lines: seq<Line>, original: seq<Call>, client: seq<Call>)
  {
    && SurveyLines(lines + ENDING).inOrder
    && Collect(lines + ENDING).calls == original
    && Back(lines + ENDING).calls == client
  }

  lemma EndingSilent(lines: seq<Line>)
    ensures var (v, v') := (SurveyLines(lines), SurveyLines(lines + ENDING));
            v'.inOrder == v.inOrder && v'.client == v.client && v'.original.calls == v.original.calls
  {
    var (v, c) := (SurveyLines(lines), Choice(Some(Delta(None, None)), Some("tool_calls")));
    var finish := ENDING[0];
    assert lines + ENDING == lines + [finish] + [Done];
    assert (lines + [finish])[..|lines|] == lines;
    assert (lines + [finish] + [Done])[..|lines + [finish]|] == lines + [finish];
    SurveyOnly(v, c);
  }

  lemma EndsAs(lines: seq<Line>, original: seq<Call>, client: seq<Call>)
    requires var v := SurveyLines(lines); v.inOrder && v.original.calls == original && v.client == client
    ensures Ends(lines, original, client)
  {
    EndingSilent(lines);
    ClientGets(lines + ENDING);
    LinesOriginal(lines + ENDING);
  }

  /** A fragment that names a call: the client sees the call with this fragment's arguments. */
  lemma NamesCall(v: Survey, f: Fragment, calls: seq<Call>)
    requires CollectFragment(v.original, f).calls == calls && Slot(f) < |calls|
    requires !IsNamed(v.named, Slot(f)) && calls[Slot(f)].name != ""
    ensures var (v', c) := (SurveyFragment(v, f), calls[Slot(f)]);
            && v'.named == v.named + [Naming(Slot(f), c.id, c.name)]
            && v'.client == v.client + [Call(c.id, c.name, ArgumentsIn(f).UnwrapOr(""))]
            && v'.original.calls == calls
            && (v'.inOrder <==> v.inOrder && Slot(f) == |v.named|)
  {
    var c := calls[Slot(f)];
    NameOne(v.named, Naming(Slot(f), c.id, c.name));
    AppendToLast(v.client, Call(c.id, c.name, ""), ArgumentsIn(f).UnwrapOr(""));
  }

  lemma AppendToLast(client: seq<Call>, c: Call, args: string)
    requires c.arguments == ""
    ensures AppendArguments(client + [c], args) == client + [c.(arguments := args)]
  {
    assert "" + args == args;
  }

  /** Two calls open, then arguments for the first: they reach the client as the second's. */
  lemma MisfiledStream()
    ensures Ends([CallChunk(Part(0, Some("a"), Some("f"), None))]
                 + [CallChunk(Part(1, Some("b"), Some("g"), None))]
                 + [CallChunk(Part(0, None, None, Some("x")))],
                 [Call("a", "f", "x"), Call("b", "g", "")],
                 [Call("a", "f", ""), Call("b", "g", "x")])
  {
    var (f0, f1, f2) := (Part(0, Some("a"), Some("f"), None), Part(1, Some("b"), Some("g"), None),
                         Part(0, None, None, Some("x")));
    var two := [CallChunk(f0)] + [CallChunk(f1)];
    TwoCalls();
    SurveyCall(two, f2);
    MisfiledTail(SurveyLines(two), f2);
    EndsAs(two + [CallChunk(f2)], [Call("a", "f", "x"), Call("b", "g", "")], [Call("a", "f", ""), Call("b", "g", "x")]);
  }

  lemma TwoCalls()
    ensures var v := SurveyLines([CallChunk(Part(0, Some("a"), Some("f"), None))]
                                 + [CallChunk(Part(1, Some("b"), Some("g"), None))]);
            && v.inOrder && v.named == [Naming(0, "a", "f"), Naming(1, "b", "g")]
            && v.original.calls == v.client == [Call("a", "f", ""), Call("b", "g", "")]
  {
    var (f0, f1) := (Part(0, Some("a"), Some("f"), None), Part(1, Some("b"), Some("g"), None));
    SurveyFirst(f0);
    NamesCall(BLANK, f0, [Call("a", "f", "")]);
    SurveyCall([CallChunk(f0)], f1);
    SecondCall(SurveyLines([CallChunk(f0)]), f1);
  }

  lemma SecondCall(v: Survey, f: Fragment)
    requires f == Part(1, Some("b"), Some("g"), None)
    requires v.inOrder && v.named == [Naming(0, "a", "f")] && v.original.calls == v.client == [Call("a", "f", "")]
    ensures var v' := SurveyFragment(v, f);
            && v'.inOrder && v'.named == [Naming(0, "a", "f"), Naming(1, "b", "g")]
            && v'.original.calls == v'.client == [Call("a", "f", ""), Call("b", "g", "")]
  {
    CollectNext(v.original, f);
    assert !IsNamed(v.named, 1);
    NamesCall(v, f, [Call("a", "f", ""), Call("b", "g", "")]);
  }

  lemma MisfiledTail(v: Survey, f: Fragment)
    requires v.inOrder && v.named == [Naming(0, "a", "f"), Naming(1, "b", "g")]
    requires v.original.calls == v.client == [Call("a", "f", ""), Call("b", "g", "")]
    requires f == Part(0, None, None, Some("x"))
    ensures var v' := SurveyFragment(v, f);
            && v'.inOrder
            && v'.original.calls == [Call("a", "f", "x"), Call("b", "g", "")]
            && v'.client == [Call("a", "f", ""), Call("b", "g", "x")]
  {
    assert v.named[0].slot == 0;
    AppendToLast([Call("a", "f", "")], Call("b", "g", ""), "x");
    assert "" + "x" == "x";
    assert [Call("a", "f", "")] + [Call("b", "g", "")] == v.client;
  }

  lemma SurveyFirst(f: Fragment)
    requires Slot(f) == 0
    ensures SurveyLines([CallChunk(f)]) == SurveyFragment(BLANK, f)
    ensures CollectFragment(EMPTY, f).calls
         == [Call(f.id.UnwrapOr(""), NameIn(f).UnwrapOr(""), ArgumentsIn(f).UnwrapOr(""))]
  {
    assert [] + [CallChunk(f)] == [CallChunk(f)];
    SurveyCall([], f);
    CollectNext(EMPTY, f);
  }

  /** Arguments, then a name with more arguments: only the later ones reach the client. */
  lemma UnsentStream()
    ensures Ends([CallChunk(Part(0, Some("a"), None, Some("x")))] + [CallChunk(Part(0, None, Some("f"), Some("y")))],
                 [Call("a", "f", "xy")], [Call("a", "f", "y")])
  {
    var (f0, f1) := (Part(0, Some("a"), None, Some("x")), Part(0, None, Some("f"), Some("y")));
    SurveyFirst(f0);
    var v := SurveyLines([CallChunk(f0)]);
    SurveyCall([CallChunk(f0)], f1);
    assert "x" + "y" == "xy";
    NamesCall(v, f1, [Call("a", "f", "xy")]);
    EndsAs([CallChunk(f0)] + [CallChunk(f1)], [Call("a", "f", "xy")], [Call("a", "f", "y")]);
  }

  /** A call that is never named never reaches the client. */
  lemma UnnamedStream()
    ensures Ends([CallChunk(Part(0, Some("a"), None, None))], [Call("a", "", "")], [])
  {
    var f := Part(0, Some("a"), None, None);
    SurveyFirst(f);
    EndsAs([CallChunk(f)], [Call("a", "", "")], []);
  }

  /** A call that changes its id and name once it has them keeps the first ones at the client. */
  lemma RenamedStream()
    ensures Ends([CallChunk(Part(0, Some("a"), Some("f"), None))] + [CallChunk(Part(0, Some("b"), Some("g"), None))],
                 [Call("b", "g", "")], [Call("a", "f", "")])
  {
    var (f0, f1) := (Part(0, Some("a"), Some("f"), None), Part(0, Some("b"), Some("g"), None));
    SurveyFirst(f0);
    NamesCall(BLANK, f0, [Call("a", "f", "")]);
    var v := SurveyLines([CallChunk(f0)]);
    assert v.named[0].slot == 0;
    SurveyCall([CallChunk(f0)], f1);
    assert CollectFragment(v.original, f1).calls == [Call("b", "g", "")];
    EndsAs([CallChunk(f0)] + [CallChunk(f1)], [Call("b", "g", "")], [Call("a", "f", "")]);
  }
}
