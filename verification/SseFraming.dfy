/** Incremental server-sent-event framing (src/forward.rs:25-150): text arrives in pieces cut anywhere,
    is buffered, and drained one blank-line-terminated block at a time.

    Text is one byte per character. A piece that is not UTF-8 on its own only counts its bytes. */
module SseFraming {
  import opened Wrappers
  import opened Lists
  import opened Text
  import opened Streams

  // ----- text -----

  /** The leftmost "\n\n". */
  function FindBreak(s: string): (r: Option<nat>)
    ensures r.Some? ==> r.value + 2 <= |s| && s[r.value] == '\n' && s[r.value + 1] == '\n'
  {
    if |s| < 2 then None
    else if s[0] == '\n' && s[1] == '\n' then Some(0)
    else
      var r := FindBreak(s[1..]);
      if r.Some? then Some(r.value + 1) else None
  }

  function StripPrefix(line: string, prefix: string): Option<string>
  {
    if prefix <= line then Some(line[|prefix|..]) else None
  }

  /** ASCII whitespace. */
  predicate IsSpace(c: char)
  {
    c == ' ' || 9 <= c as int <= 13
  }

  function TrimStart(s: string): string
  {
    if s != "" && IsSpace(s[0]) then TrimStart(s[1..]) else s
  }

  function Trim(s: string): string
  {
    var t := TrimStart(s);
    TrimEnd(t)
  }

  function TrimEnd(s: string): string
  {
    if s != "" && IsSpace(s[|s| - 1]) then TrimEnd(s[..|s| - 1]) else s
  }

  function EventTypeOf(s: string): EventType
  {
    match s
    case "message_start" => MessageStartType
    case "content_block_start" => BlockStartType
    case "content_block_delta" => BlockDeltaType
    case "content_block_stop" => BlockStopType
    case "message_delta" => MessageDeltaType
    case "message_stop" => MessageStopType
    case _ => OtherEvent
  }

  // ----- the reference: split the whole text at its leftmost breaks -----

  function Blocks(text: string): seq<string>
    decreases |text|
  {
    var p := FindBreak(text);
    if p.None? then [] else [text[..p.value]] + Blocks(text[p.value + 2..])
  }

  function Residue(text: string): string
    decreases |text|
  {
    var p := FindBreak(text);
    if p.None? then text else Residue(text[p.value + 2..])
  }

  // ----- what is read off a block -----

  datatype TokenUsage = TokenUsage(input: nat, output: nat, cacheRead: nat, cacheWrite: nat)

  /** A parsed `data:` object, as the outcome of the lookups made on it. */
  datatype SseValue = SseValue(
    kind: EventType,
    messageUsage: Option<(nat, nat, nat)>,
    deltaText: Option<string>,
    usageOutput: Option<nat>,
    payload: Payload)

  /** JSON parsing and printing, supplied by serde. */
  datatype Serde = Serde(parse: string -> Option<SseValue>, render: Line -> string)

  datatype Captured = Captured(usage: TokenUsage, text: string)

  const TEXT_CAP: nat := 32_768

  function DataOf(j: Serde, line: string): Option<SseValue>
  {
    var d := StripPrefix(line, "data: ");
    if d.None? || d.value == "" || d.value[0] != '{' then None else j.parse(d.value)
  }

  function AppendCapped(text: string, more: string): string
  {
    if |text| < TEXT_CAP then
      var remaining := TEXT_CAP - |text|;
      text + more[..if |more| <= remaining then |more| else remaining]
    else text
  }

  function ParseValue(c: Captured, v: SseValue): Captured
  {
    match v.kind
    case MessageStartType =>
      if v.messageUsage.None? then c
      else
        var (input, read, write) := v.messageUsage.value;
        c.(usage := c.usage.(input := input, cacheRead := read, cacheWrite := write))
    case BlockDeltaType =>
      if v.deltaText.None? then c else c.(text := AppendCapped(c.text, v.deltaText.value))
    case MessageDeltaType =>
      if v.usageOutput.None? then c else c.(usage := c.usage.(output := v.usageOutput.value))
    case _ => c
  }

  function ParseLine(j: Serde, c: Captured, line: string): Captured
  {
    var v := DataOf(j, line);
    if v.None? then c else ParseValue(c, v.value)
  }

  function ParseLines(j: Serde, c: Captured, lines: seq<string>): Captured
  {
    if lines == [] then c else ParseLine(j, ParseLines(j, c, lines[..|lines| - 1]), lines[|lines| - 1])
  }

  function ParseBlock(j: Serde, c: Captured, block: string): Captured
  {
    ParseLines(j, c, TextLines(block))
  }

  function ParseBlocks(j: Serde, c: Captured, blocks: seq<string>): Captured
  {
    if blocks == [] then c else ParseBlock(j, ParseBlocks(j, c, blocks[..|blocks| - 1]), blocks[|blocks| - 1])
  }

  /** The last `event: ` line, trimmed, and the last `data: ` line. */
  function EventLines(lines: seq<string>): (string, string)
  {
    if lines == [] then ("", "")
    else
      var (e, d) := EventLines(lines[..|lines| - 1]);
      var line := lines[|lines| - 1];
      if StripPrefix(line, "event: ").Some? then (Trim(StripPrefix(line, "event: ").value), d)
      else if StripPrefix(line, "data: ").Some? then (e, StripPrefix(line, "data: ").value)
      else (e, d)
  }

  function ConvertBlock(j: Serde, a: AState, block: string): AState
  {
    var (e, d) := EventLines(TextLines(block));
    if e == "" || d == "" then a
    else
      var v := j.parse(d);
      if v.None? then a else StepEvent(a, Event(EventTypeOf(e), v.value.payload))
  }

  function ConvertBlocks(j: Serde, a: AState, blocks: seq<string>): AState
  {
    if blocks == [] then a else ConvertBlock(j, ConvertBlocks(j, a, blocks[..|blocks| - 1]), blocks[|blocks| - 1])
  }

  function Rendered(j: Serde, lines: seq<Line>): string
  {
    FlatMap(j.render, lines)
  }

  // ----- runs over blocks -----

  lemma {:induction false} ParseAppend(j: Serde, c: Captured, a: seq<string>, b: seq<string>)
    ensures ParseBlocks(j, c, a + b) == ParseBlocks(j, ParseBlocks(j, c, a), b)
  {
    if b == [] {
      assert a + b == a;
    } else {
      assert (a + b)[..|a + b| - 1] == a + b[..|b| - 1];
      ParseAppend(j, c, a, b[..|b| - 1]);
    }
  }

  lemma {:induction false} ConvertAppend(j: Serde, s: AState, a: seq<string>, b: seq<string>)
    ensures ConvertBlocks(j, s, a + b) == ConvertBlocks(j, ConvertBlocks(j, s, a), b)
  {
    if b == [] {
      assert a + b == a;
    } else {
      assert (a + b)[..|a + b| - 1] == a + b[..|b| - 1];
      ConvertAppend(j, s, a, b[..|b| - 1]);
    }
  }

  lemma FirstBlock(text: string, p: nat)
    requires FindBreak(text) == Some(p)
    ensures Blocks(text) == [text[..p]] + Blocks(text[p + 2..])
  {
  }

  lemma ParseFirst(j: Serde, c: Captured, text: string, p: nat)
    requires FindBreak(text) == Some(p)
    ensures ParseBlocks(j, c, Blocks(text)) == ParseBlocks(j, ParseBlock(j, c, text[..p]), Blocks(text[p + 2..]))
  {
    FirstBlock(text, p);
    ParseOne(j, c, text[..p], Blocks(text[p + 2..]), Blocks(text));
  }

  lemma ParseOne(j: Serde, c: Captured, block: string, rest: seq<string>, all: seq<string>)
    requires all == [block] + rest
    ensures ParseBlocks(j, c, all) == ParseBlocks(j, ParseBlock(j, c, block), rest)
  {
    ParseAppend(j, c, [block], rest);
    assert [block][..0] == [];
  }

  lemma ConvertFirst(j: Serde, s: AState, text: string, p: nat)
    requires FindBreak(text) == Some(p)
    ensures ConvertBlocks(j, s, Blocks(text)) == ConvertBlocks(j, ConvertBlock(j, s, text[..p]), Blocks(text[p + 2..]))
  {
    FirstBlock(text, p);
    ConvertOne(j, s, text[..p], Blocks(text[p + 2..]), Blocks(text));
  }

  lemma ConvertOne(j: Serde, s: AState, block: string, rest: seq<string>, all: seq<string>)
    requires all == [block] + rest
    ensures ConvertBlocks(j, s, all) == ConvertBlocks(j, ConvertBlock(j, s, block), rest)
  {
    ConvertAppend(j, s, [block], rest);
    assert [block][..0] == [];
  }

  // ----- the processor, as the code runs it -----

  datatype Piece = Utf8(text: string) | NotUtf8(size: nat)

  class SseProcessor {
    const j: Serde
    var totalBytes: nat
    var captured: Captured
    var sseBuf: string
    const openaiConverter: AnthropicToOpenAIStream?
    var openaiSseBuf: string

    constructor (j: Serde, needsOpenaiConversion: bool)
      ensures this.j == j && totalBytes == 0 && sseBuf == "" && openaiSseBuf == ""
      ensures captured == Captured(TokenUsage(0, 0, 0, 0), "")
      ensures openaiConverter != null <==> needsOpenaiConversion
      ensures openaiConverter != null ==> fresh(openaiConverter) && openaiConverter.State() == A_INITIAL
    {
      this.j := j;
      totalBytes, captured, sseBuf, openaiSseBuf := 0, Captured(TokenUsage(0, 0, 0, 0), ""), "", "";
      if needsOpenaiConversion {
        openaiConverter := new AnthropicToOpenAIStream();
      } else {
        openaiConverter := null;
      }
    }

    method ParseSseEvent(block: string)
      modifies this`captured
      ensures captured == ParseBlock(j, old(captured), block)
    {
      var lines := TextLines(block);
      for i := 0 to |lines|
        invariant captured == ParseLines(j, old(captured), lines[..i])
      {
        assert lines[..i + 1][..i] == lines[..i];
        var v := DataOf(j, lines[i]);
        if v.Some? { captured := ParseValue(captured, v.value); }
      }
      assert lines[..|lines|] == lines;
    }

    method DrainEvents()
      modifies this`captured, this`sseBuf
      ensures captured == ParseBlocks(j, old(captured), Blocks(old(sseBuf)))
      ensures sseBuf == Residue(old(sseBuf))
    {
      var p := FindBreak(sseBuf);
      while p.Some?
        invariant p == FindBreak(sseBuf)
        invariant Residue(sseBuf) == Residue(old(sseBuf))
        invariant ParseBlocks(j, captured, Blocks(sseBuf)) == ParseBlocks(j, old(captured), Blocks(old(sseBuf)))
        decreases |sseBuf|
      {
        ParseFirst(j, captured, sseBuf, p.value);
        var block := sseBuf[..p.value];
        sseBuf := sseBuf[p.value + 2..];
        ParseSseEvent(block);
        p := FindBreak(sseBuf);
      }
    }

    /** The event and data lines of one block. */
    method SplitEvent(block: string) returns (eventType: string, data: string)
      ensures (eventType, data) == EventLines(TextLines(block))
    {
      eventType, data := "", "";
      var lines := TextLines(block);
      for i := 0 to |lines|
        invariant (eventType, data) == EventLines(lines[..i])
      {
        assert lines[..i + 1][..i] == lines[..i];
        var et := StripPrefix(lines[i], "event: ");
        if et.Some? {
          eventType := Trim(et.value);
        } else {
          var d := StripPrefix(lines[i], "data: ");
          if d.Some? { data := d.value; }
        }
      }
      assert lines[..|lines|] == lines;
    }

    method ConvertEvent(block: string) returns (output: string)
      requires openaiConverter != null
      modifies openaiConverter
      ensures openaiConverter.State() == ConvertBlock(j, old(openaiConverter.State()), block)
      ensures Rendered(j, openaiConverter.log) == Rendered(j, old(openaiConverter.log)) + output
    {
      output := "";
      var eventType, data := SplitEvent(block);
      if eventType != "" && data != "" {
        var v := j.parse(data);
        var payload := if v.Some? then Some(v.value.payload) else None;
        var lines := openaiConverter.ProcessEvent(EventTypeOf(eventType), payload);
        output := FlatMap(j.render, lines);
        FlatMapAppend(j.render, old(openaiConverter.log), lines);
      }
    }

    /** Take the next block off the buffer and convert it. */
    method ConvertNext(p: nat) returns (output: string)
      requires openaiConverter != null && FindBreak(openaiSseBuf) == Some(p)
      modifies this`openaiSseBuf, openaiConverter
      ensures openaiSseBuf == old(openaiSseBuf)[p + 2..]
      ensures ConvertBlocks(j, openaiConverter.State(), Blocks(openaiSseBuf))
           == ConvertBlocks(j, old(openaiConverter.State()), Blocks(old(openaiSseBuf)))
      ensures Rendered(j, openaiConverter.log) == Rendered(j, old(openaiConverter.log)) + output
    {
      ConvertFirst(j, openaiConverter.State(), openaiSseBuf, p);
      var block := openaiSseBuf[..p];
      openaiSseBuf := openaiSseBuf[p + 2..];
      output := ConvertEvent(block);
    }

    /** `convert_anthropic_sse_events` on the converter's own buffer. */
    method ConvertEvents() returns (output: string)
      requires openaiConverter != null
      modifies this`openaiSseBuf, openaiConverter
      ensures openaiConverter.State() == ConvertBlocks(j, old(openaiConverter.State()), Blocks(old(openaiSseBuf)))
      ensures openaiSseBuf == Residue(old(openaiSseBuf))
      ensures Rendered(j, openaiConverter.log) == Rendered(j, old(openaiConverter.log)) + output
    {
      output := "";
      var p := FindBreak(openaiSseBuf);
      while p.Some?
        invariant p == FindBreak(openaiSseBuf)
        invariant Residue(openaiSseBuf) == Residue(old(openaiSseBuf))
        invariant ConvertBlocks(j, openaiConverter.State(), Blocks(openaiSseBuf))
               == ConvertBlocks(j, old(openaiConverter.State()), Blocks(old(openaiSseBuf)))
        invariant Rendered(j, openaiConverter.log) == Rendered(j, old(openaiConverter.log)) + output
        decreases |openaiSseBuf|
      {
        var more := ConvertNext(p.value);
        Regroup(Rendered(j, old(openaiConverter.log)), output, more);
        output := output + more;
        p := FindBreak(openaiSseBuf);
      }
    }

    ghost function State(): SseState
      reads this, openaiConverter
    {
      SseState(totalBytes, captured, sseBuf,
               if openaiConverter == null then None else Some((openaiConverter.State(), openaiSseBuf)))
    }

    method ConvertText(text: string) returns (converted: Option<string>)
      requires openaiConverter != null
      modifies this`openaiSseBuf, openaiConverter
      ensures (openaiConverter.State(), openaiSseBuf)
           == FeedConverter(j, old((openaiConverter.State(), openaiSseBuf)), text)
      ensures converted.Some? ==> converted.value != ""
      ensures Rendered(j, openaiConverter.log) == Rendered(j, old(openaiConverter.log)) + converted.UnwrapOr("")
    {
      converted := None;
      openaiSseBuf := openaiSseBuf + text;
      var output := ConvertEvents();
      if output != "" { converted := Some(output); }
    }

    method ReadText(text: string)
      modifies this`captured, this`sseBuf
      ensures captured == ParseBlocks(j, old(captured), Blocks(old(sseBuf) + text))
      ensures sseBuf == Residue(old(sseBuf) + text)
    {
      sseBuf := sseBuf + text;
      DrainEvents();
    }

    method ProcessChunk(data: Piece) returns (converted: Option<string>)
      modifies this, openaiConverter
      ensures State() == Feed(j, old(State()), data)
      ensures converted.Some? ==> converted.value != ""
      ensures openaiConverter != null ==>
                Rendered(j, openaiConverter.log) == Rendered(j, old(openaiConverter.log)) + converted.UnwrapOr("")
      ensures openaiConverter == null ==> converted == None
    {
      converted := None;
      totalBytes := totalBytes + Size(data);
      if data.Utf8? {
        ReadText(data.text);
        if openaiConverter != null { converted := ConvertText(data.text); }
      }
    }

    method Flush()
      modifies this`captured
      ensures State() == FlushState(j, old(State()))
    {
      if sseBuf != "" { ParseSseEvent(sseBuf); }
    }
  }

  // ----- one piece, as a function -----

  /** `converter` holds the converter's state and its buffer when conversion is on. */
  datatype SseState = SseState(
    totalBytes: nat, captured: Captured, sseBuf: string, converter: Option<(AState, string)>)

  function Size(data: Piece): nat
  {
    if data.Utf8? then |data.text| else data.size
  }

  function TextOf(data: Piece): string
  {
    if data.Utf8? then data.text else ""
  }

  function FeedConverter(j: Serde, c: (AState, string), text: string): (AState, string)
  {
    (ConvertBlocks(j, c.0, Blocks(c.1 + text)), Residue(c.1 + text))
  }

  function Feed(j: Serde, s: SseState, data: Piece): SseState
  {
    if data.NotUtf8? then s.(totalBytes := s.totalBytes + data.size)
    else
      SseState(s.totalBytes + |data.text|,
               ParseBlocks(j, s.captured, Blocks(s.sseBuf + data.text)),
               Residue(s.sseBuf + data.text),
               if s.converter.None? then None else Some(FeedConverter(j, s.converter.value, data.text)))
  }

  function FlushState(j: Serde, s: SseState): SseState
  {
    if s.sseBuf == "" then s else s.(captured := ParseBlock(j, s.captured, s.sseBuf))
  }

  function FeedAll(j: Serde, s: SseState, pieces: seq<Piece>): SseState
  {
    if pieces == [] then s else Feed(j, FeedAll(j, s, pieces[..|pieces| - 1]), pieces[|pieces| - 1])
  }
}
