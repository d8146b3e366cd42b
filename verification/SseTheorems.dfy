/** What the SSE processor computes does not depend on how the network cut the text. */
module SseTheorems {
  import opened Wrappers
  import opened Lists
  import opened Streams
  import opened SseFraming

  const NOTHING := Captured(TokenUsage(0, 0, 0, 0), "")

  function NewState(conversion: bool): SseState
  {
    SseState(0, NOTHING, "", if conversion then Some((A_INITIAL, "")) else None)
  }

  /** The text of the pieces that decode. */
  function WholeText(pieces: seq<Piece>): string
  {
    FlatMap(TextOf, pieces)
  }

  function TotalSize(pieces: seq<Piece>): nat
  {
    if pieces == [] then 0 else TotalSize(pieces[..|pieces| - 1]) + Size(pieces[|pieces| - 1])
  }

  // ----- splitting a text that arrives in two parts -----

  /** More text never moves the leftmost break. */
  lemma {:induction false} BreakStays(a: string, b: string)
    requires FindBreak(a).Some?
    ensures FindBreak(a + b) == FindBreak(a)
  {
    if !(a[0] == '\n' && a[1] == '\n') {
      assert (a + b)[1..] == a[1..] + b;
      BreakStays(a[1..], b);
    }
  }

  /** Splitting a text that arrives in two parts is splitting the first, then splitting what it left
      over together with the second. */
  ghost predicate SplitsInTwo(a: string, b: string)
  {
    && Blocks(a + b) == Blocks(a) + Blocks(Residue(a) + b)
    && Residue(a + b) == Residue(Residue(a) + b)
  }

  lemma SplitNoBreakIn(a: string, b: string)
    requires FindBreak(a).None?
    ensures SplitsInTwo(a, b)
  {
    assert [] + Blocks(a + b) == Blocks(a + b);
  }

  lemma SplitBroken(a: string, b: string)
    requires FindBreak(a).Some? && SplitsInTwo(a[FindBreak(a).value + 2..], b)
    ensures SplitsInTwo(a, b)
  {
    var p := FindBreak(a).value;
    BreakStays(a, b);
    SplitFirst(a, b);
    Regroup([a[..p]], Blocks(a[p + 2..]), Blocks(Residue(a) + b));
  }

  lemma {:induction false} SplitInTwo(a: string, b: string)
    ensures SplitsInTwo(a, b)
    decreases |a|
  {
    if FindBreak(a).None? {
      SplitNoBreakIn(a, b);
    } else {
      SplitInTwo(a[FindBreak(a).value + 2..], b);
      SplitBroken(a, b);
    }
  }

  lemma SplitFirst(a: string, b: string)
    requires FindBreak(a).Some? && FindBreak(a + b) == FindBreak(a)
    ensures var p := FindBreak(a).value;
            && Blocks(a + b) == [a[..p]] + Blocks(a[p + 2..] + b)
            && Residue(a + b) == Residue(a[p + 2..] + b)
  {
    var p := FindBreak(a).value;
    assert (a + b)[p + 2..] == a[p + 2..] + b;
    assert (a + b)[..p] == a[..p];
  }

  /** The reference split really is a split at leftmost breaks: joining the blocks with the
      separator restores the text, and no block and no residue holds a break. */
  function Rejoin(blocks: seq<string>, residue: string): string
  {
    if blocks == [] then residue else blocks[0] + "\n\n" + Rejoin(blocks[1..], residue)
  }

  lemma {:induction false} LeftmostBreak(s: string)
    requires FindBreak(s).Some?
    ensures FindBreak(s[..FindBreak(s).value]).None?
    ensures s == s[..FindBreak(s).value] + "\n\n" + s[FindBreak(s).value + 2..]
  {
    var p := FindBreak(s).value;
    if p > 0 {
      LeftmostBreak(s[1..]);
      assert s[..p][1..] == s[1..][..p - 1];
    }
  }

  lemma SplitRestores(text: string)
    ensures Rejoin(Blocks(text), Residue(text)) == text
    ensures NoBreakIn(Residue(text)) && forall i :: 0 <= i < |Blocks(text)| ==> NoBreakIn(Blocks(text)[i])
  {
    RejoinRestores(text);
    NoneIsNoBreak(Residue(text));
    forall i | 0 <= i < |Blocks(text)| ensures NoBreakIn(Blocks(text)[i]) { NoneIsNoBreak(Blocks(text)[i]); }
  }

  /** No two line feeds in a row. */
  predicate NoBreakIn(s: string)
  {
    forall i :: 0 < i < |s| ==> !(s[i - 1] == '\n' && s[i] == '\n')
  }

  lemma {:induction false} NoneIsNoBreak(s: string)
    requires FindBreak(s).None?
    ensures NoBreakIn(s)
  {
    if |s| >= 2 {
      NoneIsNoBreak(s[1..]);
      assert forall i :: 0 < i < |s| ==> s[i] == s[1..][i - 1];
    }
  }

  lemma {:induction false} RejoinRestores(text: string)
    ensures Rejoin(Blocks(text), Residue(text)) == text
    ensures FindBreak(Residue(text)).None?
    ensures forall i :: 0 <= i < |Blocks(text)| ==> FindBreak(Blocks(text)[i]).None?
    decreases |text|
  {
    var p := FindBreak(text);
    if p.Some? {
      LeftmostBreak(text);
      var rest := text[p.value + 2..];
      RejoinRestores(rest);
      assert Blocks(text)[1..] == Blocks(rest);
      forall i | 0 <= i < |Blocks(text)| ensures FindBreak(Blocks(text)[i]).None? {
        if i > 0 { assert Blocks(text)[i] == Blocks(rest)[i - 1]; }
      }
    }
  }

  // ----- chunking does not matter -----

  /** What the processor should hold after the whole text, whatever the pieces were. */
  ghost predicate HoldsWhole(j: Serde, s: SseState, conversion: bool, text: string)
  {
    && s.captured == ParseBlocks(j, NOTHING, Blocks(text))
    && s.sseBuf == Residue(text)
    && s.converter == if conversion then Some((ConvertBlocks(j, A_INITIAL, Blocks(text)), Residue(text))) else None
  }

  lemma FeedHoldsWhole(j: Serde, s: SseState, conversion: bool, text: string, more: string)
    requires HoldsWhole(j, s, conversion, text)
    ensures HoldsWhole(j, Feed(j, s, Utf8(more)), conversion, text + more)
  {
    SplitInTwo(text, more);
    ParseAppend(j, NOTHING, Blocks(text), Blocks(Residue(text) + more));
    ConvertAppend(j, A_INITIAL, Blocks(text), Blocks(Residue(text) + more));
  }

  /** For every way of cutting a text into pieces: the captured usage and text, the residue and the
      converter are those of the leftmost split of the whole text, and the two buffers are equal
      whenever conversion is on. */
  lemma {:induction false} ChunkingIsIrrelevant(j: Serde, conversion: bool, pieces: seq<Piece>)
    ensures var s := FeedAll(j, NewState(conversion), pieces);
            && HoldsWhole(j, s, conversion, WholeText(pieces))
            && (s.converter.Some? ==> s.converter.value.1 == s.sseBuf)
            && s.totalBytes == TotalSize(pieces)
  {
    if pieces != [] {
      var k := |pieces| - 1;
      ChunkingIsIrrelevant(j, conversion, pieces[..k]);
      var s := FeedAll(j, NewState(conversion), pieces[..k]);
      if pieces[k].Utf8? {
        FeedHoldsWhole(j, s, conversion, WholeText(pieces[..k]), pieces[k].text);
      } else {
        assert WholeText(pieces) == WholeText(pieces[..k]) + "" == WholeText(pieces[..k]);
      }
    }
  }

  /** Two ways of cutting the same text end in the same state, before and after the final flush. */
  lemma SameTextSameState(j: Serde, conversion: bool, a: seq<Piece>, b: seq<Piece>)
    requires WholeText(a) == WholeText(b) && TotalSize(a) == TotalSize(b)
    ensures FeedAll(j, NewState(conversion), a) == FeedAll(j, NewState(conversion), b)
    ensures FlushState(j, FeedAll(j, NewState(conversion), a)) == FlushState(j, FeedAll(j, NewState(conversion), b))
  {
    ChunkingIsIrrelevant(j, conversion, a);
    ChunkingIsIrrelevant(j, conversion, b);
  }

  /** What is sent on: a raw piece when conversion is off, converted text when it is on. */
  datatype Frame = Raw(piece: Piece) | Converted(text: string)

  function Raws(pieces: seq<Piece>): seq<Frame>
  {
    seq(|pieces|, i requires 0 <= i < |pieces| => Raw(pieces[i]))
  }

  function ConvertedText(f: Frame): string
  {
    match f
    case Raw(_) => ""
    case Converted(text) => text
  }

  /** What the converter makes of a whole text. */
  function Log(j: Serde, text: string): seq<Line>
  {
    ConvertBlocks(j, A_INITIAL, Blocks(text)).log
  }

  /** The frames that were sent for these pieces. */
  ghost predicate SentFor(j: Serde, conversion: bool, pieces: seq<Piece>, frames: seq<Frame>)
  {
    if conversion then
      && FlatMap(ConvertedText, frames) == Rendered(j, Log(j, WholeText(pieces)))
      && forall i :: 0 <= i < |frames| ==> frames[i].Converted? && frames[i].text != ""
    else frames == Raws(pieces)
  }

  function FinalCapture(j: Serde, text: string): Captured
  {
    var c := ParseBlocks(j, NOTHING, Blocks(text));
    if Residue(text) == "" then c else ParseBlock(j, c, Residue(text))
  }

  function WithSent(frames: seq<Frame>, send: Option<Frame>): seq<Frame>
  {
    if send.None? then frames else frames + [send.value]
  }

  /** Sending `send` for piece `n` accounts for it. */
  ghost predicate Accounts(j: Serde, conversion: bool, pieces: seq<Piece>, n: nat, send: Option<Frame>)
    requires n < |pieces|
  {
    forall frames :: SentFor(j, conversion, pieces[..n], frames) ==>
      SentFor(j, conversion, pieces[..n + 1], WithSent(frames, send))
  }

  lemma RawAccounts(j: Serde, pieces: seq<Piece>, n: nat)
    requires n < |pieces|
    ensures Accounts(j, false, pieces, n, Some(Raw(pieces[n])))
  {
    assert Raws(pieces[..n + 1]) == Raws(pieces[..n]) + [Raw(pieces[n])];
  }

  lemma ConvertedAccounts(j: Serde, pieces: seq<Piece>, n: nat, converted: Option<string>)
    requires n < |pieces| && (converted.Some? ==> converted.value != "")
    requires Rendered(j, Log(j, WholeText(pieces[..n + 1]))) ==
             Rendered(j, Log(j, WholeText(pieces[..n]))) + converted.UnwrapOr("")
    ensures Accounts(j, true, pieces, n, if converted.Some? then Some(Converted(converted.value)) else None)
  {
    var send := if converted.Some? then Some(Converted(converted.value)) else None;
    forall frames | SentFor(j, true, pieces[..n], frames)
      ensures SentFor(j, true, pieces[..n + 1], WithSent(frames, send))
    {
      if send.Some? {
        assert (frames + [send.value])[..|frames|] == frames;
      } else {
        NoMore(FlatMap(ConvertedText, frames));
      }
    }
  }

  /** One piece through the processor, and what to send on for it. */
  method ForwardOne(processor: SseProcessor, pieces: seq<Piece>, n: nat) returns (send: Option<Frame>)
    requires n < |pieces|
    requires var conversion := processor.openaiConverter != null;
             processor.State() == FeedAll(processor.j, NewState(conversion), pieces[..n])
    modifies processor, processor.openaiConverter
    ensures var conversion := processor.openaiConverter != null;
            && processor.State() == FeedAll(processor.j, NewState(conversion), pieces[..n + 1])
            && Accounts(processor.j, conversion, pieces, n, send)
  {
    var conversion := processor.openaiConverter != null;
    assert pieces[..n + 1][..n] == pieces[..n];
    ChunkingIsIrrelevant(processor.j, conversion, pieces[..n]);
    ChunkingIsIrrelevant(processor.j, conversion, pieces[..n + 1]);
    var converted := processor.ProcessChunk(pieces[n]);
    if conversion {
      send := if converted.Some? then Some(Converted(converted.value)) else None;
      ConvertedAccounts(processor.j, pieces, n, converted);
    } else {
      send := Some(Raw(pieces[n]));
      RawAccounts(processor.j, pieces, n);
    }
  }

  lemma SentOneMore(j: Serde, conversion: bool, pieces: seq<Piece>, n: nat, send: Option<Frame>, frames: seq<Frame>)
    requires n < |pieces| && Accounts(j, conversion, pieces, n, send) && SentFor(j, conversion, pieces[..n], frames)
    ensures SentFor(j, conversion, pieces[..n + 1], WithSent(frames, send))
  {
  }

  /** One turn of the loop: the next piece, and the frame for it unless the receiver is gone. */
  method ForwardNext(processor: SseProcessor, pieces: seq<Piece>, n: nat, sent: seq<Frame>, accepts: nat)
    returns (frames: seq<Frame>, refused: bool)
    requires n < |pieces| && |sent| <= accepts
    requires var conversion := processor.openaiConverter != null;
             && processor.State() == FeedAll(processor.j, NewState(conversion), pieces[..n])
             && SentFor(processor.j, conversion, pieces[..n], sent)
    modifies processor, processor.openaiConverter
    ensures var conversion := processor.openaiConverter != null;
            && processor.State() == FeedAll(processor.j, NewState(conversion), pieces[..n + 1])
            && SentFor(processor.j, conversion, pieces[..if refused then n else n + 1], frames)
    ensures Progressed(pieces, accepts, frames, n + 1, refused)
  {
    var send := ForwardOne(processor, pieces, n);
    if send.Some? && |sent| == accepts {
      frames, refused := sent, true;
    } else {
      SentOneMore(processor.j, processor.openaiConverter != null, pieces, n, send, sent);
      frames, refused := WithSent(sent, send), false;
    }
  }

  /** The loop itself, on a fresh processor. */
  method ForwardLoop(processor: SseProcessor, pieces: seq<Piece>, accepts: nat)
    returns (frames: seq<Frame>, read: nat, refused: bool)
    requires processor.State() == NewState(processor.openaiConverter != null)
    modifies processor, processor.openaiConverter
    ensures Progressed(pieces, accepts, frames, read, refused)
    ensures SentFor(processor.j, processor.openaiConverter != null, pieces[..Answered(read, refused)], frames)
    ensures processor.State() == FeedAll(processor.j, NewState(processor.openaiConverter != null), pieces[..read])
    ensures !refused ==> read == |pieces|
  {
    frames, read, refused := [], 0, false;
    ghost var j, conversion := processor.j, processor.openaiConverter != null;
    NothingSent(j, conversion);
    while read < |pieces| && !refused
      invariant Progressed(pieces, accepts, frames, read, refused)
      invariant processor.State() == FeedAll(j, NewState(conversion), pieces[..read])
      invariant SentFor(j, conversion, pieces[..Answered(read, refused)], frames)
      decreases |pieces| - read
    {
      frames, refused := ForwardNext(processor, pieces, read, frames, accepts);
      read := read + 1;
    }
  }

  /** How many of the pieces read were dealt with: all but one whose frame was refused. */
  function Answered(read: nat, refused: bool): nat
  {
    if refused && read > 0 then read - 1 else read
  }

  /** Reading stops early only at a frame that a receiver of `accepts` frames refuses. */
  predicate Progressed(pieces: seq<Piece>, accepts: nat, frames: seq<Frame>, read: nat, refused: bool)
  {
    read <= |pieces| && |frames| <= accepts && (refused ==> read > 0 && |frames| == accepts)
  }

  method Finish(processor: SseProcessor, ghost pieces: seq<Piece>) returns (captured: Captured)
    requires processor.State() == FeedAll(processor.j, NewState(processor.openaiConverter != null), pieces)
    modifies processor
    ensures captured == FinalCapture(processor.j, WholeText(pieces))
  {
    ChunkingIsIrrelevant(processor.j, processor.openaiConverter != null, pieces);
    processor.Flush();
    captured := processor.captured;
  }

  /** The forwarding loop around the processor, with a receiver that takes `accepts` frames and then hangs
      up, which ends the loop. What is sent accounts for every piece read, up to one whose frame was
      refused; when conversion is on its text is a function of the whole text read, however it was cut, and
      so are the usage and text after the final flush. */
  method Forward(j: Serde, conversion: bool, pieces: seq<Piece>, accepts: nat)
    returns (frames: seq<Frame>, read: nat, refused: bool, captured: Captured)
    ensures Progressed(pieces, accepts, frames, read, refused) && (!refused ==> read == |pieces|)
    ensures SentFor(j, conversion, pieces[..Answered(read, refused)], frames)
    ensures captured == FinalCapture(j, WholeText(pieces[..read]))
  {
    var processor := new SseProcessor(j, conversion);
    frames, read, refused := ForwardLoop(processor, pieces, accepts);
    captured := Finish(processor, pieces[..read]);
  }

  lemma NothingSent(j: Serde, conversion: bool)
    ensures SentFor(j, conversion, [], [])
  {
  }
}
