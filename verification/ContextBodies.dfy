/** What context management leaves of a body, in its own fields and bytes (src/context.rs, src/tokens.rs:14-18). */
module ContextBodies {
  import opened Wrappers
  import opened Text
  import opened ContextTrim
  import opened ContextTheorems

  // ----- printed text -----

  function Hex(n: nat): char
    requires n < 16
  {
    "0123456789abcdef"[n]
  }

  /** How JSON prints a character inside a string. */
  function Escape(c: char): string
  {
    match c
    case '"' => "\\\""
    case '\\' => "\\\\"
    case '\n' => "\\n"
    case '\r' => "\\r"
    case '\t' => "\\t"
    case _ =>
      if c as int == 8 then "\\b"
      else if c as int == 12 then "\\f"
      else if c as int < 32 then "\\u00" + [Hex(c as int / 16), Hex(c as int % 16)]
      else [c]
  }

  function Printed(s: string): string
  {
    if s == "" then "" else Printed(s[..|s| - 1]) + Escape(s[|s| - 1])
  }

  /** The size counted for a text is the length of what is printed. */
  lemma {:induction false} SizeIsPrinted(s: string)
    ensures EscapedSize(s) == |Printed(s)|
  {
    if s != "" { SizeIsPrinted(s[..|s| - 1]); }
  }

  function Quoted(s: string): string
  {
    "\"" + Printed(s) + "\""
  }

  // ----- printed bodies -----

  /** `text` is `inside` with `rest` more characters around it. */
  ghost predicate Around(text: string, inside: string, rest: nat)
  {
    exists before: string, after: string :: text == before + inside + after && |before| + |after| == rest
  }

  ghost predicate PrintsBlock(text: string, b: Block)
  {
    Around(text, if b.text.Some? then Quoted(b.text.value) else "", b.rest)
  }

  ghost predicate PrintsBlocks(texts: seq<string>, bs: seq<Block>)
  {
    |texts| == |bs| && forall i :: 0 <= i < |bs| ==> PrintsBlock(texts[i], bs[i])
  }

  ghost predicate PrintsContent(text: string, c: Content)
  {
    match c
    case Str(s) => text == Quoted(s)
    case Blocks(bs) => exists texts :: PrintsBlocks(texts, bs) && text == "[" + Join(texts, ",") + "]"
    case OtherContent => text == ""
  }

  ghost predicate PrintsMessage(text: string, m: Message)
  {
    exists content :: PrintsContent(content, m.content) && Around(text, content, m.rest)
  }

  ghost predicate PrintsMessages(texts: seq<string>, ms: seq<Message>)
  {
    |texts| == |ms| && forall i :: 0 <= i < |ms| ==> PrintsMessage(texts[i], ms[i])
  }

  ghost predicate PrintsBody(text: string, rest: nat, ms: seq<Message>)
  {
    exists texts :: PrintsMessages(texts, ms) && Around(text, Join(texts, ","), rest)
  }

  function Lengths(texts: seq<string>): nat
  {
    if texts == [] then 0 else Lengths(texts[..|texts| - 1]) + |texts[|texts| - 1]|
  }

  lemma {:induction false} JoinLength(texts: seq<string>)
    ensures |Join(texts, ",")| == Lengths(texts) + Commas(|texts|)
  {
    if |texts| == 1 {
      assert texts[..0] == [];
    } else if texts != [] {
      JoinLength(texts[..|texts| - 1]);
    }
  }

  lemma {:induction false} BlocksLength(texts: seq<string>, bs: seq<Block>)
    requires PrintsBlocks(texts, bs)
    ensures Lengths(texts) == BlocksSize(bs)
  {
    if bs != [] {
      var k := |bs| - 1;
      BlocksLength(texts[..k], bs[..k]);
      BlockLength(texts[k], bs[k]);
    }
  }

  lemma BlockLength(text: string, b: Block)
    requires PrintsBlock(text, b)
    ensures |text| == BlockSize(b)
  {
    if b.text.Some? { SizeIsPrinted(b.text.value); }
  }

  lemma MessageLength(text: string, m: Message)
    requires PrintsMessage(text, m)
    ensures |text| == Size(m)
  {
    var content :| PrintsContent(content, m.content) && Around(text, content, m.rest);
    match m.content
    case Str(s) => SizeIsPrinted(s);
    case Blocks(bs) =>
      var texts :| PrintsBlocks(texts, bs) && content == "[" + Join(texts, ",") + "]";
      JoinLength(texts);
      BlocksLength(texts, bs);
    case OtherContent =>
  }

  lemma {:induction false} MessagesLength(texts: seq<string>, ms: seq<Message>)
    requires PrintsMessages(texts, ms)
    ensures Lengths(texts) == Sizes(ms)
  {
    if ms != [] {
      var k := |ms| - 1;
      MessagesLength(texts[..k], ms[..k]);
      MessageLength(texts[k], ms[k]);
    }
  }

  /** The size of a body is the number of bytes it prints to, and its estimate a quarter of that, rounded down. */
  lemma BodyLength(text: string, rest: nat, ms: seq<Message>)
    requires PrintsBody(text, rest, ms)
    ensures |text| == BodySize(rest, Some(ms))
    ensures 4 * Estimate(rest, Some(ms)) <= |text| < 4 * Estimate(rest, Some(ms)) + 4
  {
    var texts :| PrintsMessages(texts, ms) && Around(text, Join(texts, ","), rest);
    JoinLength(texts);
    MessagesLength(texts, ms);
  }

  /** And so with the tokens counted for one message. */
  lemma TokensArePrinted(text: string, m: Message)
    requires PrintsMessage(text, m)
    ensures 4 * Tokens(m) <= |text| < 4 * Tokens(m) + 4
  {
    MessageLength(text, m);
  }

  // ----- truncated results -----

  /** Where a text is cut: at the last line break of its first `max` characters, or after them if there is none. */
  predicate CutPoint(t: string, max: nat, k: nat)
    requires max <= |t|
  {
    && k <= max && (k < max ==> t[k] == '\n')
    && forall i :: (if k < max then k + 1 else 0) <= i < max ==> t[i] != '\n'
  }

  lemma {:induction false} NewlineIsCut(t: string, i: nat, max: nat)
    requires i <= max <= |t| && forall n :: i <= n < max ==> t[n] != '\n'
    ensures CutPoint(t, max, LastNewlineFrom(t, i, max))
  {
    if i > 0 && t[i - 1] != '\n' { NewlineIsCut(t, i - 1, max); }
  }

  /** What is left of a text that was too long. */
  ghost predicate CutTo(t: string, u: string, max: nat)
    requires max <= |t|
  {
    exists k: nat :: CutPoint(t, max, k) && CutAfter(t, u, k)
  }

  ghost predicate CutAfter(t: string, u: string, k: nat)
  {
    k <= |t| && u == t[..k] + "\n[..." + Dec(|t| - k) + " chars truncated for context management]"
  }

  /** A block keeps everything but the text of a tool result that was too long. */
  ghost predicate BlockLeft(b: Block, after: Block, max: nat)
  {
    if b.kind == ToolResult && b.text.Some? && |b.text.value| > max then
      after.text.Some? && after == b.(text := after.text) && CutTo(b.text.value, after.text.value, max)
    else after == b
  }

  ghost predicate BlocksLeft(bs: seq<Block>, after: seq<Block>, max: nat)
  {
    |after| == |bs| && forall n :: 0 <= n < |bs| ==> BlockLeft(bs[n], after[n], max)
  }

  ghost predicate MessageLeft(m: Message, after: Message, max: nat)
  {
    if m.role == Some(User) && m.content.Blocks? then
      after.content.Blocks? && after == m.(content := after.content) && BlocksLeft(m.content.bs, after.content.bs, max)
    else after == m
  }

  lemma BlockIsLeft(b: Block, max: nat)
    ensures BlockLeft(b, TruncateBlock(b, max), max)
  {
    if b.kind == ToolResult && b.text.Some? && |b.text.value| > max {
      var t := b.text.value;
      NewlineIsCut(t, max, max);
      assert CutAfter(t, TruncateText(t, max), LastNewline(t, max));
    }
  }

  lemma MessageIsLeft(m: Message, max: nat)
    ensures MessageLeft(m, TruncateMessage(m, max), max)
  {
    if m.role == Some(User) && m.content.Blocks? {
      forall n | 0 <= n < |m.content.bs| ensures BlockLeft(m.content.bs[n], TruncateBlocks(m.content.bs, max)[n], max) {
        BlockIsLeft(m.content.bs[n], max);
      }
    }
  }

  /** Truncation leaves a list of at most 6 messages alone, and in a longer one the last 4; in the others only the
      overlong string results of user messages are cut. */
  ghost predicate ResultsCut(ms: seq<Message>, after: seq<Message>, max: nat)
  {
    && |after| == |ms|
    && (|ms| <= 6 ==> after == ms)
    && forall i :: 0 <= i < |ms| ==> if i + 4 < |ms| && |ms| > 6 then MessageLeft(ms[i], after[i], max) else after[i] == ms[i]
  }

  lemma TruncatesExactly(ms: seq<Message>, max: nat)
    ensures ResultsCut(ms, Truncate(ms, max), max)
  {
    forall i | 0 <= i < |ms| && i + 4 < |ms| && |ms| > 6 ensures MessageLeft(ms[i], Truncate(ms, max)[i], max) {
      MessageIsLeft(ms[i], max);
    }
  }

  /** Truncation reports a change exactly when some old result is too long. */
  lemma ReportsExactly(ms: seq<Message>, max: nat)
    ensures AnyNeedsTruncating(ms, max) <==> exists i, n :: OverlongAt(ms, i, n, max)
  {
    if AnyNeedsTruncating(ms, max) {
      var i :| 0 <= i < |ms| - 4 && NeedsTruncating(ms[i], max);
      var n :| 0 <= n < |ms[i].content.bs| && TooLong(ms[i].content.bs[n], max);
      assert OverlongAt(ms, i, n, max);
    }
    if i, n :| OverlongAt(ms, i, n, max) {
      assert TooLong(ms[i].content.bs[n], max) && AnyTooLong(ms[i].content.bs, max);
      assert NeedsTruncating(ms[i], max);
    }
  }

  /** Block n of message i is a string result that is too long, in a user message before the last 4 of more than 6. */
  ghost predicate OverlongAt(ms: seq<Message>, i: int, n: int, max: nat)
  {
    && |ms| > 6 && 0 <= i < |ms| - 4 && ms[i].role == Some(User) && ms[i].content.Blocks?
    && 0 <= n < |ms[i].content.bs| && ms[i].content.bs[n].kind == ToolResult
    && ms[i].content.bs[n].text.Some? && |ms[i].content.bs[n].text.value| > max
  }

  // ----- sizes in bytes -----

  /** A body goes untouched up to 240,003 bytes for DeepSeek and up to 760,003 for others, and a larger one is
      brought below that, or had at most 10 messages, or has nothing left to remove. */
  lemma FitsInBytes(rest: nat, messages: Option<seq<Message>>, provider: string)
    requires BodySize(rest, Truncated(messages, 2_000)) < USIZE
    ensures var most := if provider == "deepseek" then 240_003 else 760_003;
            var out := Fitted(rest, messages, Limit(provider));
            && (BodySize(rest, messages) <= most ==> out == messages)
            && (BodySize(rest, messages) > most ==>
                  || BodySize(rest, out) <= most
                  || messages.None? || |messages.value| <= 10
                  || (out.Some? && CutToTheEnd(Truncate(messages.value, 2_000), out.value)))
  {
    FittedFits(rest, messages, Limit(provider));
  }

  /** What is done in each band of sizes, and what is reported. */
  lemma PreparesExactly(rest: nat, messages: Option<seq<Message>>, provider: string)
    ensures var (size, out, r) := (BodySize(rest, messages), Prepared(rest, messages, provider),
                                   ActionFor(rest, messages, provider));
            && (size < 220_000 ==> out == messages && r == ContextAction(false, "none", false))
            && (220_000 <= size < 256_000 && provider == "deepseek" ==>
                  out == Truncated(messages, 4_000) && r.action == "compress-for-deepseek" && !r.forceClaude
                  && (r.bodyModified <==> messages.Some? && AnyNeedsTruncating(messages.value, 4_000)))
            && (220_000 <= size < 480_000 && (size >= 256_000 || provider != "deepseek") ==>
                  out == Truncated(messages, 6_000) && r.action == "prefer-claude" && r.forceClaude
                  && (r.bodyModified <==> messages.Some? && AnyNeedsTruncating(messages.value, 6_000)))
            && (480_000 <= size < 720_000 ==>
                  out == Trim(rest, Truncated(messages, 3_000), 100_000) && r == ContextAction(true, "trim-old-messages", true))
            && (720_000 <= size ==>
                  out == Trim(rest, Truncated(messages, 2_000), 80_000) && r == ContextAction(true, "emergency-trim", true))
  {
  }

  /** A body that is trimmed ends below 400,164 bytes (320,164 in an emergency), or had at most 10 messages, or has
      nothing left to remove. */
  lemma PreparedInBytes(rest: nat, messages: Option<seq<Message>>, provider: string)
    requires BodySize(rest, messages) >= 480_000
    requires BodySize(rest, Truncated(messages, 3_000)) < USIZE && BodySize(rest, Truncated(messages, 2_000)) < USIZE
    ensures var most := if BodySize(rest, messages) < 720_000 then 400_163 else 320_163;
            var ms := Truncated(messages, if BodySize(rest, messages) < 720_000 then 3_000 else 2_000);
            var out := Prepared(rest, messages, provider);
            || BodySize(rest, out) <= most
            || messages.None? || |messages.value| <= 10
            || (out.Some? && CutToTheEnd(ms.value, out.value))
  {
    var early := BodySize(rest, messages) < 720_000;
    var (max, target) := if early then (3_000, 100_000) else (2_000, 80_000);
    if messages.Some? && |messages.value| > 10 {
      var ms := Truncate(messages.value, max);
      if Estimate(rest, Some(ms)) > target { TrimFits(rest, ms, target); }
    }
  }

  /** The summary says how many messages are gone and about how many tokens they were. */
  lemma SummarySays(ms: seq<Message>, out: seq<Message>, k: nat, removed: nat)
    requires CutAt(ms, out, k, removed)
    ensures |out| == |ms| - (k - 2) + 1
    ensures out[2].role == Some(Assistant)
    ensures out[2].content == Str("[Context management: " + Dec(k - 2) + " earlier messages removed to save ~"
                                  + Dec(removed) + " tokens]")
    ensures PrintsMessage("{\"content\":" + Quoted(out[2].content.s) + ",\"role\":\"assistant\"}", out[2])
  {
    var (before, after) := ("{\"content\":", ",\"role\":\"assistant\"}");
    assert |before| + |after| == 31;
    assert PrintsContent(Quoted(out[2].content.s), out[2].content);
  }
}
