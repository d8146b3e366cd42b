/** A scan of an OpenAI stream that knows nothing of the converters (src/transform.rs:209-394, :559-649).
    It says which calls a client behind both of them ends up with, and keeps the books on whether they are
    the calls of the stream itself. */
module StreamSurvey {
  import opened Wrappers
  import opened Lists
  import opened Streams
  import opened StreamClients

  /** A call's slot, and its id and name when it was first named. */
  datatype Naming = Naming(slot: nat, id: string, name: string)

  datatype Survey = Survey(
    original: Message,        // what a client of the stream itself has assembled
    client: seq<Call>,        // the calls of a client behind both converters
    named: seq<Naming>,       // the calls named so far, first named first
    inOrder: bool,            // calls were named in index order
    filed: bool,              // arguments only ever went to the newest named call
    heard: Option<string>)    // the first finish reason the converters heard; [DONE] counts as "stop"

  const BLANK := Survey(EMPTY, [], [], true, true, None)

  predicate IsNamed(named: seq<Naming>, slot: nat)
  {
    exists k :: 0 <= k < |named| && named[k].slot == slot
  }

  /** Arguments for slot `i` go to the newest named call. */
  predicate IsNewest(named: seq<Naming>, i: nat)
  {
    named != [] && named[|named| - 1].slot == i
  }

  function SurveyFragment(v: Survey, f: Fragment): Survey
  {
    var i := Slot(f);
    var original := CollectFragment(v.original, f);
    var c := original.calls[i];
    var args := ArgumentsIn(f).UnwrapOr("");
    var opens := !IsNamed(v.named, i) && c.name != "";
    var named := if opens then v.named + [Naming(i, c.id, c.name)] else v.named;
    var client := if opens then v.client + [Call(c.id, c.name, "")] else v.client;
    Survey(original,
           if args != "" && IsNamed(named, i) then AppendArguments(client, args) else client,
           named,
           v.inOrder && (opens ==> i == |v.named|),
           v.filed && (args != "" ==> IsNewest(named, i)),
           v.heard)
  }

  function SurveyFragments(v: Survey, fs: seq<Fragment>): Survey
  {
    if fs == [] then v else SurveyFragment(SurveyFragments(v, fs[..|fs| - 1]), fs[|fs| - 1])
  }

  function SurveyText(v: Survey, content: Option<string>): Survey
  {
    v.(original := v.original.(text := v.original.text + content.UnwrapOr("")))
  }

  function SurveyDelta(v: Survey, delta: Delta): Survey
  {
    SurveyFragments(SurveyText(v, delta.content), delta.toolCalls.UnwrapOr([]))
  }

  function First(a: Option<string>, b: Option<string>): Option<string>
  {
    if a.None? then b else a
  }

  /** The first converter skips a choice without a delta, its finish reason included. */
  function SurveyChoice(v: Survey, c: Choice): Survey
  {
    var v1 := if c.delta.Some? then SurveyDelta(v, c.delta.value) else v;
    v1.(original := CollectFinish(v1.original, c.finishReason),
        heard := if c.delta.Some? then First(v1.heard, c.finishReason) else v1.heard)
  }

  function SurveyChoices(v: Survey, cs: seq<Choice>): Survey
  {
    if cs == [] then v else SurveyChoice(SurveyChoices(v, cs[..|cs| - 1]), cs[|cs| - 1])
  }

  function SurveyLine(v: Survey, line: Line): Survey
  {
    match line
    case Done => v.(heard := First(v.heard, Some("stop")))
    case Malformed => v
    case Parsed(chunk) => SurveyChoices(v, chunk.choices.UnwrapOr([]))
  }

  function SurveyLines(lines: seq<Line>): Survey
  {
    if lines == [] then BLANK else SurveyLine(SurveyLines(lines[..|lines| - 1]), lines[|lines| - 1])
  }

  // ----- the scan follows the stream -----

  lemma {:induction false} FragmentsOriginal(v: Survey, fs: seq<Fragment>)
    ensures SurveyFragments(v, fs).original == CollectFragments(v.original, fs)
    ensures SurveyFragments(v, fs).heard == v.heard
  {
    if fs != [] { FragmentsOriginal(v, fs[..|fs| - 1]); }
  }

  lemma ChoiceOriginal(v: Survey, c: Choice)
    ensures SurveyChoice(v, c).original == CollectChoice(v.original, c)
  {
    if c.delta.Some? {
      FragmentsOriginal(SurveyText(v, c.delta.value.content), c.delta.value.toolCalls.UnwrapOr([]));
    }
  }

  lemma {:induction false} ChoicesOriginal(v: Survey, cs: seq<Choice>)
    ensures SurveyChoices(v, cs).original == CollectChoices(v.original, cs)
  {
    if cs != [] {
      var k := |cs| - 1;
      ChoicesOriginal(v, cs[..k]);
      ChoiceOriginal(SurveyChoices(v, cs[..k]), cs[k]);
    }
  }

  lemma {:induction false} LinesOriginal(lines: seq<Line>)
    ensures SurveyLines(lines).original == Collect(lines)
  {
    if lines != [] {
      var k := |lines| - 1;
      LinesOriginal(lines[..k]);
      if lines[k].Parsed? { ChoicesOriginal(SurveyLines(lines[..k]), lines[k].chunk.choices.UnwrapOr([])); }
    }
  }

  // ----- argument lengths -----

  /** The characters of arguments in the first `k` calls. */
  function Length(calls: seq<Call>, k: nat): nat
  {
    if k == 0 then 0 else Length(calls, k - 1) + if k <= |calls| then |calls[k - 1].arguments| else 0
  }

  lemma {:induction false} LengthUpdate(calls: seq<Call>, i: nat, c: Call, more: nat, k: nat)
    requires i < |calls| && |c.arguments| == |calls[i].arguments| + more
    ensures Length(calls[i := c], k) == Length(calls, k) + if i < k then more else 0
  {
    if k > 0 { LengthUpdate(calls, i, c, more, k - 1); }
  }

  lemma {:induction false} LengthBlank(calls: seq<Call>, longer: seq<Call>, k: nat)
    requires |calls| <= |longer|
    requires forall i :: 0 <= i < |longer| ==>
               longer[i].arguments == if i < |calls| then calls[i].arguments else ""
    ensures Length(longer, k) == Length(calls, k)
  {
    if k > 0 { LengthBlank(calls, longer, k - 1); }
  }

  /** In no first few calls does the client have more arguments than there are. */
  ghost predicate Behind(client: seq<Call>, calls: seq<Call>)
  {
    forall k: nat :: Length(client, k) <= Length(calls, k)
  }

  ghost predicate LostSome(client: seq<Call>, calls: seq<Call>)
  {
    exists k: nat :: Length(client, k) < Length(calls, k)
  }

  // ----- what every in-order scan keeps -----

  ghost predicate Booked(v: Survey)
  {
    && |v.client| == |v.named| <= |v.original.calls|
    && (forall k :: 0 <= k < |v.named| ==> v.named[k] == Naming(k, v.client[k].id, v.client[k].name))
  }

  ghost predicate AllFiled(v: Survey)
    requires |v.client| <= |v.original.calls|
  {
    forall k :: 0 <= k < |v.original.calls| ==> FiledAt(v.original.calls, v.client, k)
  }

  ghost predicate FiledAt(calls: seq<Call>, client: seq<Call>, k: nat)
  {
    ArgumentsAt(calls, k) == ArgumentsAt(client, k)
  }

  function ArgumentsAt(calls: seq<Call>, k: nat): string
  {
    if k < |calls| then calls[k].arguments else ""
  }

  ghost predicate Kept(v: Survey)
  {
    && Booked(v)
    && (v.filed ==> AllFiled(v))
    && Behind(v.client, v.original.calls)
    && (!v.filed ==> LostSome(v.client, v.original.calls))
  }

  lemma FragmentBooked(v: Survey, f: Fragment)
    requires Booked(v) && SurveyFragment(v, f).inOrder
    ensures Booked(SurveyFragment(v, f))
    ensures forall i: nat :: IsNamed(SurveyFragment(v, f).named, i) <==> i < |SurveyFragment(v, f).named|
  {
    NamedInOrder(v);
    NamedInOrder(SurveyFragment(v, f));
  }

  lemma NamedInOrder(v: Survey)
    requires forall k :: 0 <= k < |v.named| ==> v.named[k].slot == k
    ensures forall i: nat :: IsNamed(v.named, i) <==> i < |v.named|
  {
    forall i: nat | i < |v.named| ensures IsNamed(v.named, i) {
      assert v.named[i].slot == i;
    }
  }

  lemma FragmentAllFiled(v: Survey, f: Fragment)
    requires Booked(v) && AllFiled(v) && SurveyFragment(v, f).inOrder && SurveyFragment(v, f).filed
    ensures Booked(SurveyFragment(v, f)) && AllFiled(SurveyFragment(v, f))
  {
    FragmentBooked(v, f);
    var v' := SurveyFragment(v, f);
    forall k | 0 <= k < |v'.original.calls| ensures FiledAt(v'.original.calls, v'.client, k) {
      FragmentFiledAt(v, f, k);
    }
  }

  lemma FragmentFiledAt(v: Survey, f: Fragment, k: nat)
    requires Booked(v) && AllFiled(v) && SurveyFragment(v, f).inOrder && SurveyFragment(v, f).filed
    ensures FiledAt(SurveyFragment(v, f).original.calls, SurveyFragment(v, f).client, k)
  {
    FragmentBooked(v, f);
    CollectedArguments(v.original, f, k);
    ClientArguments(v, f, k);
    assert k < |v.original.calls| ==> FiledAt(v.original.calls, v.client, k);
  }

  lemma CollectedArguments(m: Message, f: Fragment, k: nat)
    ensures ArgumentsAt(CollectFragment(m, f).calls, k) ==
            ArgumentsAt(m.calls, k) + if k == Slot(f) then ArgumentsIn(f).UnwrapOr("") else ""
  {
    NoMore(ArgumentsAt(m.calls, k));
    assert "" + ArgumentsIn(f).UnwrapOr("") == ArgumentsIn(f).UnwrapOr("");
  }

  lemma ClientArguments(v: Survey, f: Fragment, k: nat)
    requires Booked(v) && SurveyFragment(v, f).inOrder && SurveyFragment(v, f).filed
    ensures var v' := SurveyFragment(v, f);
            ArgumentsAt(v'.client, k) == ArgumentsAt(v.client, k) + if k == Slot(f) then ArgumentsIn(f).UnwrapOr("") else ""
  {
    FragmentBooked(v, f);
    var v' := SurveyFragment(v, f);
    var args := ArgumentsIn(f).UnwrapOr("");
    NoMore(ArgumentsAt(v.client, k));
    assert args != "" ==> Slot(f) == |v'.named| - 1;
  }

  /** How one fragment changes the lengths. */
  lemma FragmentLengths(v: Survey, f: Fragment, k: nat)
    requires Booked(v) && SurveyFragment(v, f).inOrder
    ensures var (v', i, more) := (SurveyFragment(v, f), Slot(f), |ArgumentsIn(f).UnwrapOr("")|);
            && Length(v'.original.calls, k) == Length(v.original.calls, k) + (if i < k then more else 0)
            && Length(v'.client, k) == Length(v.client, k) + (if i < |v'.named| <= k then more else 0)
  {
    FragmentBooked(v, f);
    ClientLength(v, f, k);
  }

  lemma ClientLength(v: Survey, f: Fragment, k: nat)
    requires Booked(v) && SurveyFragment(v, f).inOrder
    ensures var (v', more) := (SurveyFragment(v, f), |ArgumentsIn(f).UnwrapOr("")|);
            Length(v'.client, k) == Length(v.client, k) + if Slot(f) < |v'.named| <= k then more else 0
  {
    FragmentBooked(v, f);
    var v' := SurveyFragment(v, f);
    var c := v'.original.calls[Slot(f)];
    var args := ArgumentsIn(f).UnwrapOr("");
    var client := if |v'.named| > |v.named| then v.client + [Call(c.id, c.name, "")] else v.client;
    LengthBlank(v.client, client, k);
    if args != "" && Slot(f) < |v'.named| {
      var n := |client| - 1;
      LengthUpdate(client, n, client[n].(arguments := client[n].arguments + args), |args|, k);
    }
  }

  lemma FragmentKept(v: Survey, f: Fragment)
    requires Kept(v) && SurveyFragment(v, f).inOrder
    ensures Kept(SurveyFragment(v, f))
  {
    var v' := SurveyFragment(v, f);
    FragmentBooked(v, f);
    if v'.filed { FragmentAllFiled(v, f); }
    forall k: nat ensures Length(v'.client, k) <= Length(v'.original.calls, k) {
      FragmentLengths(v, f, k);
    }
    if !v.filed {
      var k: nat :| Length(v.client, k) < Length(v.original.calls, k);
      FragmentLengths(v, f, k);
    } else if !v'.filed {
      FragmentLengths(v, f, Slot(f) + 1);
    }
  }

  lemma {:induction false} FragmentsKept(v: Survey, fs: seq<Fragment>)
    requires Kept(v) && SurveyFragments(v, fs).inOrder
    ensures Kept(SurveyFragments(v, fs))
  {
    if fs != [] {
      var k := |fs| - 1;
      assert SurveyFragments(v, fs[..k]).inOrder;
      FragmentsKept(v, fs[..k]);
      FragmentKept(SurveyFragments(v, fs[..k]), fs[k]);
    }
  }

  lemma ChoiceKept(v: Survey, c: Choice)
    requires Kept(v) && SurveyChoice(v, c).inOrder
    ensures Kept(SurveyChoice(v, c))
  {
    if c.delta.Some? {
      FragmentsKept(SurveyText(v, c.delta.value.content), c.delta.value.toolCalls.UnwrapOr([]));
    }
  }

  lemma {:induction false} ChoicesKept(v: Survey, cs: seq<Choice>)
    requires Kept(v) && SurveyChoices(v, cs).inOrder
    ensures Kept(SurveyChoices(v, cs))
  {
    if cs != [] {
      var k := |cs| - 1;
      ChoiceStays(SurveyChoices(v, cs[..k]), cs[k]);
      ChoicesKept(v, cs[..k]);
      ChoiceKept(SurveyChoices(v, cs[..k]), cs[k]);
    }
  }

  lemma BlankKept()
    ensures Kept(BLANK)
  {
    forall k: nat ensures Length(BLANK.client, k) <= Length(BLANK.original.calls, k) {
    }
  }

  lemma {:induction false} LinesKept(lines: seq<Line>)
    requires SurveyLines(lines).inOrder
    ensures Kept(SurveyLines(lines))
  {
    if lines == [] {
      BlankKept();
    } else {
      var k := |lines| - 1;
      LineStays(SurveyLines(lines[..k]), lines[k]);
      LinesKept(lines[..k]);
      if lines[k].Parsed? { ChoicesKept(SurveyLines(lines[..k]), lines[k].chunk.choices.UnwrapOr([])); }
    }
  }

  // ----- what is broken stays broken -----

  /** A scan that is out of order, or has misfiled arguments, stays so. */
  ghost predicate Stays(v: Survey, v': Survey)
  {
    (v'.inOrder ==> v.inOrder) && (v'.filed ==> v.filed)
  }

  lemma {:induction false} FragmentsStay(v: Survey, fs: seq<Fragment>)
    ensures Stays(v, SurveyFragments(v, fs))
  {
    if fs != [] { FragmentsStay(v, fs[..|fs| - 1]); }
  }

  lemma ChoiceStays(v: Survey, c: Choice)
    ensures Stays(v, SurveyChoice(v, c))
  {
    if c.delta.Some? {
      FragmentsStay(SurveyText(v, c.delta.value.content), c.delta.value.toolCalls.UnwrapOr([]));
    }
  }

  lemma {:induction false} ChoicesStay(v: Survey, cs: seq<Choice>)
    ensures Stays(v, SurveyChoices(v, cs))
  {
    if cs != [] {
      var k := |cs| - 1;
      ChoicesStay(v, cs[..k]);
      ChoiceStays(SurveyChoices(v, cs[..k]), cs[k]);
    }
  }

  lemma LineStays(v: Survey, line: Line)
    ensures Stays(v, SurveyLine(v, line))
  {
    if line.Parsed? { ChoicesStay(v, line.chunk.choices.UnwrapOr([])); }
  }

  lemma {:induction false} LinesStay(before: seq<Line>, after: seq<Line>)
    ensures Stays(SurveyLines(before), SurveyLines(before + after))
  {
    if after == [] {
      assert before + after == before;
    } else {
      var k := |after| - 1;
      assert (before + after)[..|before + after| - 1] == before + after[..k];
      LinesStay(before, after[..k]);
      LineStays(SurveyLines(before + after[..k]), after[k]);
    }
  }

  // ----- when the client's calls are the stream's -----

  /** Arguments only went to the newest named call, every call was named, and every call still has the id
      and name it had then. */
  ghost predicate CallsReturn(v: Survey)
  {
    && v.filed
    && |v.named| == |v.original.calls|
    && forall k :: 0 <= k < |v.named| ==>
         v.named[k].id == v.original.calls[k].id && v.named[k].name == v.original.calls[k].name
  }

  lemma ClientKeepsCallsExactly(v: Survey)
    requires Kept(v)
    ensures v.client == v.original.calls <==> CallsReturn(v)
  {
    if CallsReturn(v) {
      forall k | 0 <= k < |v.client| ensures v.client[k] == v.original.calls[k] {
        assert v.named[k] == Naming(k, v.client[k].id, v.client[k].name);
        assert FiledAt(v.original.calls, v.client, k);
      }
    }
    if v.client == v.original.calls {
      forall k | 0 <= k < |v.named|
        ensures v.named[k].id == v.original.calls[k].id && v.named[k].name == v.original.calls[k].name
      {
        assert v.named[k] == Naming(k, v.client[k].id, v.client[k].name);
      }
    }
  }
}
