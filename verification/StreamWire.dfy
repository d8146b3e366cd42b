/** The two stream converters joined by text: the events of src/transform.rs:688-690 printed, cut anywhere by
    the network, and read back by src/forward.rs:28-53. */
module StreamWire {
  import opened Wrappers
  import opened Lists
  import opened Text
  import opened TextLayout
  import opened Streams
  import opened SseFraming
  import opened SseTheorems
  import opened StreamClients
  import opened StreamSurvey
  import opened StreamRoundTrip

  function TypeName(kind: EventType): string
  {
    match kind
    case MessageStartType => "message_start"
    case BlockStartType => "content_block_start"
    case BlockDeltaType => "content_block_delta"
    case BlockStopType => "content_block_stop"
    case MessageDeltaType => "message_delta"
    case MessageStopType => "message_stop"
    case OtherEvent => "ping"
  }

  /** Printed JSON is one line and parses back. */
  ghost predicate Lawful(j: Serde, json: Event -> string)
  {
    forall e :: var text := json(e);
      && OneLine(text) && text != ""
      && j.parse(text).Some? && j.parse(text).value.payload == e.payload
  }

  function EventLine(e: Event): string
  {
    "event: " + TypeName(e.kind)
  }

  function DataLine(json: Event -> string, e: Event): string
  {
    "data: " + json(e)
  }

  function BlockOf(json: Event -> string, e: Event): string
  {
    EventLine(e) + ("\n" + DataLine(json, e))
  }

  /** `sse_event` */
  function Printed(json: Event -> string, e: Event): string
  {
    BlockOf(json, e) + "\n\n"
  }

  function PrintAll(json: Event -> string, events: seq<Event>): string
  {
    if events == [] then "" else PrintAll(json, events[..|events| - 1]) + Printed(json, events[|events| - 1])
  }

  // ----- where the breaks are -----

  function Shifted(r: Option<nat>, n: nat): Option<nat>
  {
    if r.None? then None else Some(r.value + n)
  }

  lemma Front(h: string, t: string)
    requires h != ""
    ensures h + t != "" && (h + t)[0] == h[0] && (h + t)[1..] == h[1..] + t
  {
  }

  lemma {:induction false} BreakAfter(h: string, t: string)
    requires OneLine(h)
    ensures FindBreak(h + t) == Shifted(FindBreak(t), |h|)
  {
    if h == "" {
      assert h + t == t;
    } else {
      Front(h, t);
      BreakAfter(h[1..], t);
    }
  }

  lemma {:induction false} NewlineAfter(h: string, t: string)
    requires OneLine(h)
    ensures FindNewline(h + t) == Shifted(FindNewline(t), |h|)
  {
    if h == "" {
      assert h + t == t;
    } else {
      Front(h, t);
      NewlineAfter(h[1..], t);
    }
  }

  /** Two lines, and the break after them. */
  lemma BreakAfterTwo(h: string, d: string)
    requires OneLine(h) && OneLine(d) && d != ""
    ensures FindBreak(h + ("\n" + d) + "\n\n") == Some(|h + ("\n" + d)|)
  {
    Regroup(h, "\n" + d, "\n\n");
    Regroup("\n", d, "\n\n");
    BreakAfter(h, "\n" + (d + "\n\n"));
    SecondBreak(d);
  }

  lemma SecondBreak(d: string)
    requires OneLine(d) && d != ""
    ensures FindBreak("\n" + (d + "\n\n")) == Some(|d| + 1)
  {
    BreakAfter(d, "\n\n");
    AfterNewline(d + "\n\n");
  }

  lemma AfterNewline(t: string)
    requires t != "" && t[0] != '\n'
    ensures FindBreak("\n" + t) == Shifted(FindBreak(t), 1)
  {
    var s := "\n" + t;
    assert s[1] == t[0] && s[1..] == t;
    BreakLater(s);
  }

  lemma BreakLater(s: string)
    requires |s| >= 2 && s[1] != '\n'
    ensures FindBreak(s) == Shifted(FindBreak(s[1..]), 1)
  {
  }

  lemma LinesOfTwo(h: string, d: string)
    requires OneLine(h) && OneLine(d) && d != ""
    ensures TextLines(h + ("\n" + d)) == [DropCarriageReturn(h), d]
  {
    var s := h + ("\n" + d);
    NewlineAfter(h, "\n" + d);
    assert s[..|h|] == h && s[|h| + 1..] == d;
    OnlyLine(d);
  }

  lemma OnlyLine(d: string)
    requires OneLine(d) && d != ""
    ensures TextLines(d) == [d]
  {
    NewlineAfter(d, "");
    NoMore(d);
  }

  // ----- one event -----

  lemma TypeNamePlain(kind: EventType)
    ensures OneLine(TypeName(kind)) && TypeName(kind) != ""
    ensures !IsSpace(TypeName(kind)[0]) && !IsSpace(TypeName(kind)[|TypeName(kind)| - 1])
  {
  }

  lemma TypeNameRead(kind: EventType)
    ensures EventTypeOf(TypeName(kind)) == kind
  {
    assert "message_start"[8] != "message_delta"[8];
    assert "content_block_start"[14] != "content_block_delta"[14];
    assert |"message_start"| == 13 && |"message_delta"| == 13 && |"message_stop"| == 12;
    assert |"content_block_start"| == 19 && |"content_block_delta"| == 19 && |"content_block_stop"| == 18;
    assert |"ping"| == 4;
  }

  lemma LinesOf(json: Event -> string, e: Event)
    requires OneLine(json(e))
    ensures OneLine(EventLine(e)) && OneLine(DataLine(json, e)) && DataLine(json, e) != ""
    ensures DropCarriageReturn(EventLine(e)) == EventLine(e)
  {
    TypeNamePlain(e.kind);
    var name := TypeName(e.kind);
    assert EventLine(e)[|EventLine(e)| - 1] == name[|name| - 1];
    assert forall i :: 0 <= i < 7 ==> EventLine(e)[i] == "event: "[i];
    assert forall i :: 7 <= i < |EventLine(e)| ==> EventLine(e)[i] == name[i - 7];
    assert forall i :: 6 <= i < |DataLine(json, e)| ==> DataLine(json, e)[i] == json(e)[i - 6];
  }

  lemma ReadLines(json: Event -> string, e: Event)
    ensures EventLines([EventLine(e), DataLine(json, e)]) == (TypeName(e.kind), json(e))
  {
    TypeNamePlain(e.kind);
    var h, d := EventLine(e), DataLine(json, e);
    var none: seq<string> := [];
    assert [h, d][..1] == [h] && [h][..0] == none;
    assert h[|"event: "|..] == TypeName(e.kind) && d[|"data: "|..] == json(e);
    assert d[0] == 'd' && "event: "[0] == 'e';
    assert EventLines([h]) == (TypeName(e.kind), "");
  }

  lemma ConvertPrintedOne(j: Serde, json: Event -> string, a: AState, e: Event)
    requires Lawful(j, json)
    ensures ConvertBlock(j, a, BlockOf(json, e)) == StepEvent(a, e)
  {
    assert OneLine(json(e)) && json(e) != "";
    LinesOf(json, e);
    LinesOfTwo(EventLine(e), DataLine(json, e));
    ReadLines(json, e);
    TypeNamePlain(e.kind);
    TypeNameRead(e.kind);
  }

  lemma SplitPrintedOne(json: Event -> string, e: Event)
    requires OneLine(json(e))
    ensures Blocks(Printed(json, e)) == [BlockOf(json, e)] && Residue(Printed(json, e)) == ""
  {
    LinesOf(json, e);
    BreakAfterTwo(EventLine(e), DataLine(json, e));
    var text := Printed(json, e);
    var p := |BlockOf(json, e)|;
    assert text[..p] == BlockOf(json, e) && text[p + 2..] == "";
    assert Blocks("") == [] && Residue("") == "";
  }

  // ----- a whole log -----

  lemma {:induction false} ConvertPrinted(j: Serde, json: Event -> string, events: seq<Event>)
    requires Lawful(j, json)
    ensures Residue(PrintAll(json, events)) == ""
    ensures ConvertBlocks(j, A_INITIAL, Blocks(PrintAll(json, events))) == RunEvents(events)
  {
    if events != [] {
      var k := |events| - 1;
      var (a, b) := (PrintAll(json, events[..k]), Printed(json, events[k]));
      ConvertPrinted(j, json, events[..k]);
      assert OneLine(json(events[k]));
      SplitPrintedOne(json, events[k]);
      SplitInTwo(a, b);
      assert "" + b == b;
      ConvertOneMore(j, Blocks(a), BlockOf(json, events[k]));
      ConvertPrintedOne(j, json, RunEvents(events[..k]), events[k]);
    }
  }

  lemma ConvertOneMore(j: Serde, blocks: seq<string>, block: string)
    ensures ConvertBlocks(j, A_INITIAL, blocks + [block]) == ConvertBlock(j, ConvertBlocks(j, A_INITIAL, blocks), block)
  {
    assert (blocks + [block])[..|blocks|] == blocks;
  }

  /** For every OpenAI stream, every lawful JSON printer and every way of cutting the printed Anthropic events
      into pieces: what the forwarding loop sends is the stream converted twice, nothing is left over, and a
      client assembles from it what the survey of the stream says. */
  lemma OverTheWire(j: Serde, json: Event -> string, lines: seq<Line>, pieces: seq<Piece>, frames: seq<Frame>)
    requires Lawful(j, json) && WholeText(pieces) == PrintAll(json, RunLines(lines).log)
    requires SentFor(j, true, pieces, frames)
    ensures var sent := Log(j, WholeText(pieces));
            && FlatMap(ConvertedText, frames) == Rendered(j, sent)
            && Collect(sent) == Message(Collect(lines).text, SurveyLines(lines).client, Twice(SurveyLines(lines).heard))
    ensures Residue(WholeText(pieces)) == ""
  {
    ConvertPrinted(j, json, RunLines(lines).log);
    ClientGets(lines);
  }
}
