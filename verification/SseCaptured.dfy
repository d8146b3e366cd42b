/** What the proxy captures from a stream it forwards (src/forward.rs:55-87, 125-149): the usage and the text that
    the `data:` objects of the whole text say, however it was cut. */
module SseCaptured {
  import opened Wrappers
  import opened Lists
  import opened Text
  import opened Streams
  import opened SseFraming
  import opened SseTheorems

  // ----- the objects in a text -----

  /** A line that starts with "data: {" holds an object, if that parses. */
  function ObjectOn(j: Serde): string -> seq<SseValue>
  {
    (line: string) =>
      if |line| > 6 && line[..6] == "data: " && line[6] == '{' && j.parse(line[6..]).Some?
      then [j.parse(line[6..]).value] else []
  }

  function ObjectsOf(j: Serde): string -> seq<SseValue>
  {
    (block: string) => FlatMap(ObjectOn(j), TextLines(block))
  }

  /** All objects of the blocks, in order. */
  function ObjectsIn(j: Serde, blocks: seq<string>): seq<SseValue>
  {
    FlatMap(ObjectsOf(j), blocks)
  }

  // ----- what they say -----

  predicate TellsInput(v: SseValue)
  {
    v.kind == MessageStartType && v.messageUsage.Some?
  }

  predicate TellsOutput(v: SseValue)
  {
    v.kind == MessageDeltaType && v.usageOutput.Some?
  }

  /** Input and cache tokens are those of the last `message_start` with usage, output tokens those of the last
      `message_delta` with usage, and what nobody told is 0. */
  ghost predicate UsageFrom(vs: seq<SseValue>, u: TokenUsage)
  {
    && (match LastThat(TellsInput, vs)
        case None => u.input == 0 && u.cacheRead == 0 && u.cacheWrite == 0
        case Some(v) => v.messageUsage == Some((u.input, u.cacheRead, u.cacheWrite)))
    && (match LastThat(TellsOutput, vs)
        case None => u.output == 0
        case Some(v) => v.usageOutput == Some(u.output))
  }

  function TextIn(v: SseValue): string
  {
    if v.kind == BlockDeltaType then v.deltaText.UnwrapOr("") else ""
  }

  /** The first 32,768 characters. */
  predicate Begins(text: string, all: string)
  {
    |text| == (if |all| <= 32_768 then |all| else 32_768) && text <= all
  }

  /** What is captured says what these objects say. */
  ghost predicate Tells(vs: seq<SseValue>, c: Captured)
  {
    UsageFrom(vs, c.usage) && Begins(c.text, FlatMap(TextIn, vs))
  }

  // ----- object by object -----

  function ParseValues(c: Captured, vs: seq<SseValue>): Captured
  {
    if vs == [] then c else ParseValue(ParseValues(c, vs[..|vs| - 1]), vs[|vs| - 1])
  }

  lemma {:induction false} ParseValuesAppend(c: Captured, a: seq<SseValue>, b: seq<SseValue>)
    ensures ParseValues(c, a + b) == ParseValues(ParseValues(c, a), b)
  {
    if b == [] {
      NoMore(a);
    } else {
      var k := |b| - 1;
      assert (a + b)[..|a + b| - 1] == a + b[..k];
      ParseValuesAppend(c, a, b[..k]);
    }
  }

  lemma LineHolds(j: Serde, c: Captured, line: string)
    ensures ParseLine(j, c, line) == ParseValues(c, ObjectOn(j)(line))
  {
    var prefix := "data: ";
    assert prefix <= line ==> line[..6] == prefix;
    assert |line| >= 6 && line[..6] == prefix ==> prefix <= line;
    if ObjectOn(j)(line) != [] {
      var v := j.parse(line[6..]).value;
      assert [v][..0] == [];
      assert ParseValues(c, [v][..0]) == c;
    }
  }

  lemma {:induction false} LinesHold(j: Serde, c: Captured, lines: seq<string>)
    ensures ParseLines(j, c, lines) == ParseValues(c, FlatMap(ObjectOn(j), lines))
  {
    if lines != [] {
      var k := |lines| - 1;
      LinesHold(j, c, lines[..k]);
      LineHolds(j, ParseLines(j, c, lines[..k]), lines[k]);
      ParseValuesAppend(c, FlatMap(ObjectOn(j), lines[..k]), ObjectOn(j)(lines[k]));
    }
  }

  lemma {:induction false} BlocksHold(j: Serde, c: Captured, blocks: seq<string>)
    ensures ParseBlocks(j, c, blocks) == ParseValues(c, ObjectsIn(j, blocks))
  {
    if blocks != [] {
      var k := |blocks| - 1;
      BlocksHold(j, c, blocks[..k]);
      LinesHold(j, ParseBlocks(j, c, blocks[..k]), TextLines(blocks[k]));
      ParseValuesAppend(c, ObjectsIn(j, blocks[..k]), ObjectsOf(j)(blocks[k]));
    }
  }

  lemma {:induction false} ValuesSay(vs: seq<SseValue>)
    ensures Tells(vs, ParseValues(NOTHING, vs))
  {
    if vs != [] {
      var k := |vs| - 1;
      ValuesSay(vs[..k]);
      ValueNext(vs[..k], vs[k], ParseValues(NOTHING, vs[..k]));
      assert vs == vs[..k] + [vs[k]];
    }
  }

  lemma ValueNext(before: seq<SseValue>, v: SseValue, c: Captured)
    requires Tells(before, c)
    ensures Tells(before + [v], ParseValue(c, v))
  {
    ValueSays(before, v, c);
    TextGrows(c, v, FlatMap(TextIn, before));
    FlatMapNext(TextIn, before, v);
  }

  lemma ValueSays(before: seq<SseValue>, v: SseValue, c: Captured)
    requires UsageFrom(before, c.usage)
    ensures UsageFrom(before + [v], ParseValue(c, v).usage)
  {
    LastNext(TellsInput, before, v);
    LastNext(TellsOutput, before, v);
    if TellsInput(v) {
      var (input, read, write) := v.messageUsage.value;
      assert v.messageUsage == Some((input, read, write));
    }
  }

  lemma TextGrows(c: Captured, v: SseValue, all: string)
    requires Begins(c.text, all)
    ensures Begins(ParseValue(c, v).text, all + TextIn(v))
  {
    if v.kind == BlockDeltaType && v.deltaText.Some? { CappedGrows(c.text, all, v.deltaText.value); } else { NoMore(all); }
  }

  lemma CappedGrows(text: string, all: string, more: string)
    requires Begins(text, all)
    ensures Begins(AppendCapped(text, more), all + more)
  {
  }

  /** For every text, however it was cut into pieces: the usage captured is what its objects told last, and the
      text captured is the first 32,768 characters of all its text deltas. */
  lemma CapturesWhatIsSaid(j: Serde, conversion: bool, pieces: seq<Piece>)
    ensures var c := FeedAll(j, NewState(conversion), pieces).captured;
            var vs := ObjectsIn(j, Blocks(WholeText(pieces)));
            Tells(vs, c)
  {
    var vs := ObjectsIn(j, Blocks(WholeText(pieces)));
    ChunkingIsIrrelevant(j, conversion, pieces);
    BlocksHold(j, NOTHING, Blocks(WholeText(pieces)));
    ValuesSay(vs);
  }

  /** And after the final flush what is left counts as one more block. */
  lemma FinalCaptureSays(j: Serde, text: string)
    ensures var c := FinalCapture(j, text);
            var vs := ObjectsIn(j, Blocks(text) + if Residue(text) == "" then [] else [Residue(text)]);
            Tells(vs, c)
  {
    var blocks := Blocks(text) + if Residue(text) == "" then [] else [Residue(text)];
    NoMore(Blocks(text));
    assert Residue(text) != "" ==> blocks[..|blocks| - 1] == Blocks(text);
    BlocksHold(j, NOTHING, blocks);
    ValuesSay(ObjectsIn(j, blocks));
  }

  // ----- what the converter is given -----

  predicate IsEventLine(line: string)
  {
    |line| >= 7 && line[..7] == "event: "
  }

  predicate IsDataLine(line: string)
  {
    |line| >= 6 && line[..6] == "data: "
  }

  /** Blank, tab, line feed, vertical tab, form feed or carriage return. */
  predicate Space(c: char)
  {
    c == ' ' || c == '\t' || c == '\n' || c as int == 11 || c as int == 12 || c == '\r'
  }

  predicate AllSpaces(s: string)
  {
    forall i :: 0 <= i < |s| ==> Space(s[i])
  }

  predicate TrimmedAt(s: string, t: string, i: nat)
  {
    i + |t| <= |s| && s[i..i + |t|] == t && AllSpaces(s[..i]) && AllSpaces(s[i + |t|..])
  }

  /** What trimming leaves: everything but the space around it, which starts and ends with none. */
  ghost predicate TrimmedTo(s: string, t: string)
  {
    && (exists i: nat :: TrimmedAt(s, t, i))
    && (t != "" ==> !Space(t[0]) && !Space(t[|t| - 1]))
  }

  lemma {:induction false} TrimStartCuts(s: string) returns (i: nat)
    ensures i <= |s| && TrimStart(s) == s[i..] && AllSpaces(s[..i]) && (i < |s| ==> !Space(s[i]))
  {
    i := 0;
    if s != "" && IsSpace(s[0]) {
      var k := TrimStartCuts(s[1..]);
      i := k + 1;
      assert s[1..][k..] == s[i..] && s[..i] == [s[0]] + s[1..][..k];
    }
  }

  lemma {:induction false} TrimEndCuts(s: string) returns (n: nat)
    ensures n <= |s| && TrimEnd(s) == s[..n] && AllSpaces(s[n..]) && (n > 0 ==> !Space(s[n - 1]))
  {
    n := |s|;
    if s != "" && IsSpace(s[|s| - 1]) {
      var k := |s| - 1;
      n := TrimEndCuts(s[..k]);
      assert s[..k][..n] == s[..n] && s[n..] == s[..k][n..] + [s[k]];
    }
  }

  lemma TrimExactly(s: string)
    ensures TrimmedTo(s, Trim(s))
  {
    var i := TrimStartCuts(s);
    var n := TrimEndCuts(s[i..]);
    var t := Trim(s);
    assert t == s[i..][..n] && s[i..][..n] == s[i..i + n];
    assert s[i + n..] == s[i..][n..];
    assert TrimmedAt(s, t, i);
    if t != "" { assert t[0] == s[i] && t[|t| - 1] == s[i..][n - 1]; }
  }

  ghost predicate KindOn(line: string, kind: string)
  {
    |line| >= 7 && TrimmedTo(line[7..], kind)
  }

  /** The type is what follows the last "event: ", trimmed, and the data what follows the last "data: ". */
  ghost predicate ReadOff(lines: seq<string>, kind: string, data: string)
  {
    && (match LastThat(IsEventLine, lines)
        case None => kind == ""
        case Some(line) => KindOn(line, kind))
    && (match LastThat(IsDataLine, lines)
        case None => data == ""
        case Some(line) => |line| >= 6 && data == line[6..])
  }

  lemma {:induction false} LinesReadOff(lines: seq<string>)
    ensures ReadOff(lines, EventLines(lines).0, EventLines(lines).1)
  {
    if lines != [] {
      var k := |lines| - 1;
      LinesReadOff(lines[..k]);
      Prefixed(lines[k]);
      LineReadOff(lines[..k], lines[k], EventLines(lines[..k]).0, EventLines(lines[..k]).1);
      assert lines == lines[..k] + [lines[k]];
    }
  }

  lemma LineReadOff(before: seq<string>, line: string, kind: string, data: string)
    requires ReadOff(before, kind, data)
    ensures ReadOff(before + [line], if IsEventLine(line) then Trim(line[7..]) else kind,
                    if IsDataLine(line) then line[6..] else data)
  {
    LastNext(IsEventLine, before, line);
    LastNext(IsDataLine, before, line);
    if IsEventLine(line) { TrimExactly(line[7..]); }
  }

  lemma Prefixed(line: string)
    ensures StripPrefix(line, "event: ") == if IsEventLine(line) then Some(line[7..]) else None
    ensures StripPrefix(line, "data: ") == if IsDataLine(line) then Some(line[6..]) else None
    ensures !(IsEventLine(line) && IsDataLine(line))
  {
    var (e, d) := ("event: ", "data: ");
    assert e <= line ==> line[..7] == e;
    assert d <= line ==> line[..6] == d;
    assert |line| >= 7 && line[..7] == e ==> e <= line && line[0] == e[0];
    assert |line| >= 6 && line[..6] == d ==> d <= line && line[0] == d[0];
  }

  /** Every block of a text is given to the converter as its type and its data, unless one of them is empty or the
      data does not parse. */
  lemma BlockConverts(j: Serde, a: AState, block: string) returns (kind: string, data: string)
    ensures ReadOff(TextLines(block), kind, data)
    ensures ConvertBlock(j, a, block) ==
            if kind == "" || data == "" || j.parse(data).None? then a
            else StepEvent(a, Event(EventTypeOf(kind), j.parse(data).value.payload))
  {
    LinesReadOff(TextLines(block));
    kind, data := EventLines(TextLines(block)).0, EventLines(TextLines(block)).1;
  }
}
