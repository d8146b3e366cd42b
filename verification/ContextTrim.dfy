/** Context window management (src/context.rs) under real size arithmetic (src/tokens.rs:14-18).

    A printed JSON value's size is additive, so a message is its role, the content the code looks at
    and the number of bytes everything else in it prints to. Text is one byte per character. */
module ContextTrim {
  import opened Wrappers
  import opened Text

  datatype Role = User | Assistant | OtherRole

  datatype BlockKind = ToolUse | ToolResult | OtherKind

  /** `id` is a tool use's id or a tool result's tool_use_id; `text` its content when that is a
      string; `rest` the bytes all else in the block prints to. */
  datatype Block = Block(kind: BlockKind, id: string, text: Option<string>, rest: nat)

  datatype Content = Str(s: string) | Blocks(bs: seq<Block>) | OtherContent

  datatype Message = Message(role: Option<Role>, content: Content, rest: nat)

  // ----- printed sizes -----

  function CharSize(c: char): nat
  {
    if c == '"' || c == '\\' || c == '\n' || c == '\r' || c == '\t' || c as int == 8 || c as int == 12 then 2
    else if c as int < 32 then 6
    else 1
  }

  function EscapedSize(s: string): nat
  {
    if s == "" then 0 else EscapedSize(s[..|s| - 1]) + CharSize(s[|s| - 1])
  }

  function BlockSize(b: Block): nat
  {
    b.rest + if b.text.Some? then 2 + EscapedSize(b.text.value) else 0
  }

  function BlocksSize(bs: seq<Block>): nat
  {
    if bs == [] then 0 else BlocksSize(bs[..|bs| - 1]) + BlockSize(bs[|bs| - 1])
  }

  function Commas(n: nat): nat
  {
    if n == 0 then 0 else n - 1
  }

  function Size(m: Message): nat
  {
    m.rest +
    match m.content
    case Str(s) => 2 + EscapedSize(s)
    case Blocks(bs) => 2 + BlocksSize(bs) + Commas(|bs|)
    case OtherContent => 0
  }

  function Sizes(ms: seq<Message>): nat
  {
    if ms == [] then 0 else Sizes(ms[..|ms| - 1]) + Size(ms[|ms| - 1])
  }

  /** `rest` is what the body prints to around the elements of its message array. */
  function BodySize(rest: nat, messages: Option<seq<Message>>): nat
  {
    rest + if messages.Some? then Sizes(messages.value) + Commas(|messages.value|) else 0
  }

  function Estimate(rest: nat, messages: Option<seq<Message>>): nat
  {
    BodySize(rest, messages) / 4
  }

  function Tokens(m: Message): nat
  {
    Size(m) / 4
  }

  // ----- truncating old tool results -----

  /** The last newline before `end`, or `end`. */
  function LastNewline(s: string, end: nat): (cut: nat)
    requires end <= |s|
    ensures cut <= end
  {
    LastNewlineFrom(s, end, end)
  }

  function LastNewlineFrom(s: string, i: nat, none: nat): (cut: nat)
    requires i <= |s| && i <= none
    ensures cut <= none
  {
    if i == 0 then none else if s[i - 1] == '\n' then i - 1 else LastNewlineFrom(s, i - 1, none)
  }

  function TruncateText(text: string, maxChars: nat): string
  {
    if |text| <= maxChars then text
    else
      var cut := LastNewline(text, maxChars);
      text[..cut] + "\n[..." + Dec(|text| - cut) + " chars truncated for context management]"
  }

  function TruncateBlock(b: Block, maxChars: nat): Block
  {
    if b.kind == ToolResult && b.text.Some? then b.(text := Some(TruncateText(b.text.value, maxChars))) else b
  }

  function TruncateBlocks(bs: seq<Block>, maxChars: nat): seq<Block>
  {
    seq(|bs|, i requires 0 <= i < |bs| => TruncateBlock(bs[i], maxChars))
  }

  function TruncateMessage(m: Message, maxChars: nat): Message
  {
    if m.role == Some(User) && m.content.Blocks? then m.(content := Blocks(TruncateBlocks(m.content.bs, maxChars))) else m
  }

  predicate TooLong(b: Block, maxChars: nat)
  {
    b.kind == ToolResult && b.text.Some? && |b.text.value| > maxChars
  }

  predicate AnyTooLong(bs: seq<Block>, maxChars: nat)
  {
    exists i :: 0 <= i < |bs| && TooLong(bs[i], maxChars)
  }

  predicate NeedsTruncating(m: Message, maxChars: nat)
  {
    m.role == Some(User) && m.content.Blocks? && AnyTooLong(m.content.bs, maxChars)
  }

  /** All but the last 4 messages of a list of more than 6. */
  function Truncate(ms: seq<Message>, maxChars: nat): seq<Message>
  {
    if |ms| <= 6 then ms
    else seq(|ms|, i requires 0 <= i < |ms| => if i < |ms| - 4 then TruncateMessage(ms[i], maxChars) else ms[i])
  }

  predicate AnyNeedsTruncating(ms: seq<Message>, maxChars: nat)
  {
    |ms| > 6 && exists i :: 0 <= i < |ms| - 4 && NeedsTruncating(ms[i], maxChars)
  }

  // ----- trimming old messages -----

  const KEEP_START: nat := 2
  const KEEP_END: nat := 6

  predicate AnyKind(bs: seq<Block>, kind: BlockKind)
  {
    exists i :: 0 <= i < |bs| && bs[i].kind == kind
  }

  predicate HasToolUse(m: Message)
  {
    m.role == Some(Assistant) && m.content.Blocks? && AnyKind(m.content.bs, ToolUse)
  }

  /** Where the removal loop stops, started at `i` with `removed` tokens gone: everything from the
      start up to there is removed. */
  function CutEnd(ms: seq<Message>, i: nat, end: nat, removed: nat, shed: nat): (r: (nat, nat))
    requires i <= end <= |ms|
    ensures i <= r.0 <= end
    decreases end - i
  {
    if i == end || removed >= shed then (i, removed)
    else if HasToolUse(ms[i]) then
      if i + 1 < end then CutEnd(ms, i + 2, end, removed + Tokens(ms[i]) + Tokens(ms[i + 1]), shed)
      else (i, removed)
    else CutEnd(ms, i + 1, end, removed + Tokens(ms[i]), shed)
  }

  function SummaryText(count: nat, removed: nat): string
  {
    "[Context management: " + Dec(count) + " earlier messages removed to save ~" + Dec(removed) + " tokens]"
  }

  /** `{"content":...,"role":"assistant"}` prints to 31 bytes around its content. */
  function Summary(count: nat, removed: nat): Message
  {
    Message(Some(Assistant), Str(SummaryText(count, removed)), 31)
  }

  function CutOf(rest: nat, ms: seq<Message>, target: nat): (nat, nat)
    requires |ms| > 10 && Estimate(rest, Some(ms)) > target
  {
    CutEnd(ms, KEEP_START, |ms| - KEEP_END, 0, Estimate(rest, Some(ms)) - target)
  }

  function Trim(rest: nat, messages: Option<seq<Message>>, target: nat): Option<seq<Message>>
  {
    if Estimate(rest, messages) <= target || messages.None? || |messages.value| <= 10 then messages
    else
      var ms := messages.value;
      var (k, removed) := CutOf(rest, ms, target);
      if k <= KEEP_START then messages
      else Some(ms[..KEEP_START] + [Summary(k - KEEP_START, removed)] + ms[k..])
  }

  /** Nothing too long, nothing changed. */
  lemma UnmodifiedIsUnchanged(ms: seq<Message>, maxChars: nat)
    requires !AnyNeedsTruncating(ms, maxChars)
    ensures Truncate(ms, maxChars) == ms
  {
    if |ms| > 6 {
      forall i | 0 <= i < |ms| - 4 ensures TruncateMessage(ms[i], maxChars) == ms[i] {
        assert !NeedsTruncating(ms[i], maxChars);
        if ms[i].role == Some(User) && ms[i].content.Blocks? {
          var bs := ms[i].content.bs;
          assert forall x :: 0 <= x < |bs| ==> !TooLong(bs[x], maxChars);
          assert TruncateBlocks(bs, maxChars) == bs;
        }
      }
    }
  }

  /** What is left once the removed messages are out of the list. */
  lemma Splice(all: seq<Message>, left: seq<Message>, k: nat)
    requires KEEP_START <= k <= |all| && left == all[..KEEP_START] + all[k..]
    ensures |left| >= KEEP_START && left[..KEEP_START] == all[..KEEP_START] && left[KEEP_START..] == all[k..]
  {
  }

  // ----- the body, as the code edits it -----

  datatype ContextAction = ContextAction(forceClaude: bool, action: string, bodyModified: bool)

  function Limit(provider: string): nat
  {
    if provider == "deepseek" then 60_000 else 190_000
  }

  class Body {
    const rest: nat
    var messages: Option<seq<Message>>

    constructor (rest: nat, messages: Option<seq<Message>>)
      ensures this.rest == rest && this.messages == messages
    {
      this.rest := rest;
      this.messages := messages;
    }

    method TruncateOldToolResults(maxChars: nat) returns (modified: bool)
      modifies this
      ensures messages == if old(messages).None? then None else Some(Truncate(old(messages).value, maxChars))
      ensures modified <==> old(messages).Some? && AnyNeedsTruncating(old(messages).value, maxChars)
    {
      modified := false;
      if messages.None? { return; }
      var ms := messages.value;
      if |ms| <= 6 { return; }
      var cutoff := |ms| - 4;
      var all := ms;
      for i := 0 to cutoff
        invariant |ms| == |all| && all[cutoff..] == ms[cutoff..]
        invariant forall n :: 0 <= n < i ==> ms[n] == TruncateMessage(all[n], maxChars)
        invariant forall n :: i <= n < |all| ==> ms[n] == all[n]
        invariant modified <==> exists n :: 0 <= n < i && NeedsTruncating(all[n], maxChars)
      {
        if ms[i].role == Some(User) && ms[i].content.Blocks? {
          var bs, changed := TruncateResults(ms[i].content.bs, maxChars);
          ms := ms[i := ms[i].(content := Blocks(bs))];
          modified := modified || changed;
        }
      }
      messages := Some(ms);
      assert ms == Truncate(all, maxChars);
    }

    static method TruncateResults(blocks: seq<Block>, maxChars: nat) returns (bs: seq<Block>, changed: bool)
      ensures bs == TruncateBlocks(blocks, maxChars)
      ensures changed <==> AnyTooLong(blocks, maxChars)
    {
      bs, changed := blocks, false;
      for n := 0 to |blocks|
        invariant |bs| == |blocks|
        invariant forall x :: 0 <= x < n ==> bs[x] == TruncateBlock(blocks[x], maxChars)
        invariant forall x :: n <= x < |bs| ==> bs[x] == blocks[x]
        invariant changed <==> exists x :: 0 <= x < n && TooLong(blocks[x], maxChars)
      {
        if bs[n].kind == ToolResult && bs[n].text.Some? {
          var text := bs[n].text.value;
          if |text| > maxChars {
            bs := bs[n := bs[n].(text := Some(TruncateText(text, maxChars)))];
            changed := true;
          }
        }
      }
    }

    /** The removal loop, collecting the indices to remove. */
    method ChooseRemovals(ms: seq<Message>, shed: nat) returns (toRemove: seq<nat>, removed: nat)
      requires |ms| > 10
      ensures var (k, r) := CutEnd(ms, KEEP_START, |ms| - KEEP_END, 0, shed);
              && removed == r && |toRemove| == k - KEEP_START
              && forall x :: 0 <= x < |toRemove| ==> toRemove[x] == KEEP_START + x
    {
      toRemove, removed := [], 0;
      var end := |ms| - KEEP_END;
      var i := KEEP_START;
      ghost var skipped := false;  // a tool use at the boundary, which ends the loop
      while i < end
        invariant KEEP_START <= i <= end && (skipped ==> i == end)
        invariant |toRemove| == (if skipped then i - 1 else i) - KEEP_START
        invariant forall x :: 0 <= x < |toRemove| ==> toRemove[x] == KEEP_START + x
        invariant CutEnd(ms, KEEP_START, end, 0, shed) ==
                  if skipped then (end - 1, removed) else CutEnd(ms, i, end, removed, shed)
      {
        if removed >= shed { break; }
        if HasToolUse(ms[i]) {
          if i + 1 < end {
            removed := removed + (Tokens(ms[i]) + Tokens(ms[i + 1]));
            toRemove := toRemove + [i] + [i + 1];
            i := i + 2;
          } else {
            i := i + 1;
            skipped := true;
          }
        } else {
          removed := removed + Tokens(ms[i]);
          toRemove := toRemove + [i];
          i := i + 1;
        }
      }
    }

    /** Remove the chosen messages, last first. */
    static method RemoveAll(all: seq<Message>, toRemove: seq<nat>) returns (ms: seq<Message>)
      requires KEEP_START + |toRemove| <= |all|
      requires forall x :: 0 <= x < |toRemove| ==> toRemove[x] == KEEP_START + x
      ensures ms == all[..KEEP_START] + all[KEEP_START + |toRemove|..]
    {
      ms := all;
      var n := |toRemove|;
      while n > 0
        invariant 0 <= n <= |toRemove|
        invariant ms == all[..KEEP_START + n] + all[KEEP_START + |toRemove|..]
      {
        n := n - 1;
        var i := toRemove[n];
        ms := ms[..i] + ms[i + 1..];
      }
    }

    method TrimOldMessages(target: nat)
      modifies this
      ensures messages == Trim(rest, old(messages), target)
    {
      var current := Estimate(rest, messages);
      if current <= target || messages.None? { return; }
      var all := messages.value;
      if |all| <= 10 { return; }
      var toRemove, removed := ChooseRemovals(all, current - target);
      if toRemove == [] { return; }
      var ms := RemoveAll(all, toRemove);
      Splice(all, ms, KEEP_START + |toRemove|);
      messages := Some(ms[..KEEP_START] + [Summary(|toRemove|, removed)] + ms[KEEP_START..]);
    }

    method EnsureFits(provider: string) returns (changed: bool)
      modifies this
      ensures changed <==> Estimate(rest, old(messages)) > Limit(provider)
      ensures messages == Fitted(rest, old(messages), Limit(provider))
    {
      var limit := Limit(provider);
      if Estimate(rest, messages) <= limit { return false; }
      var target := limit - 5_000;
      var _ := TruncateOldToolResults(2_000);
      TrimOldMessages(target);
      return true;
    }

    method Prepare(provider: string) returns (r: ContextAction)
      modifies this
      ensures messages == Prepared(rest, old(messages), provider)
      ensures r == ActionFor(rest, old(messages), provider)
      ensures !r.bodyModified ==> messages == old(messages)
    {
      var estimated := Estimate(rest, messages);
      if estimated < 55_000 { return ContextAction(false, "none", false); }
      if estimated < 64_000 && provider == "deepseek" {
        var trimmed := TruncateOldToolResults(4_000);
        if !trimmed && messages.Some? { UnmodifiedIsUnchanged(old(messages).value, 4_000); }
        return ContextAction(false, "compress-for-deepseek", trimmed);
      }
      if estimated < 120_000 {
        var trimmed := TruncateOldToolResults(6_000);
        if !trimmed && messages.Some? { UnmodifiedIsUnchanged(old(messages).value, 6_000); }
        return ContextAction(true, "prefer-claude", trimmed);
      }
      if estimated < 180_000 {
        var _ := TruncateOldToolResults(3_000);
        TrimOldMessages(100_000);
        return ContextAction(true, "trim-old-messages", true);
      }
      var _ := TruncateOldToolResults(2_000);
      TrimOldMessages(80_000);
      return ContextAction(true, "emergency-trim", true);
    }
  }

  function ActionFor(rest: nat, messages: Option<seq<Message>>, provider: string): ContextAction
  {
    var estimated := Estimate(rest, messages);
    if estimated < 55_000 then ContextAction(false, "none", false)
    else if estimated < 64_000 && provider == "deepseek" then
      ContextAction(false, "compress-for-deepseek", Shortened(messages, 4_000))
    else if estimated < 120_000 then ContextAction(true, "prefer-claude", Shortened(messages, 6_000))
    else if estimated < 180_000 then ContextAction(true, "trim-old-messages", true)
    else ContextAction(true, "emergency-trim", true)
  }

  predicate Shortened(messages: Option<seq<Message>>, maxChars: nat)
  {
    messages.Some? && AnyNeedsTruncating(messages.value, maxChars)
  }

  function Truncated(messages: Option<seq<Message>>, maxChars: nat): Option<seq<Message>>
  {
    if messages.None? then None else Some(Truncate(messages.value, maxChars))
  }

  function Fitted(rest: nat, messages: Option<seq<Message>>, limit: nat): Option<seq<Message>>
    requires limit >= 5_000
  {
    if Estimate(rest, messages) <= limit then messages
    else Trim(rest, Truncated(messages, 2_000), limit - 5_000)
  }

  function Prepared(rest: nat, messages: Option<seq<Message>>, provider: string): Option<seq<Message>>
  {
    var estimated := Estimate(rest, messages);
    if estimated < 55_000 then messages
    else if estimated < 64_000 && provider == "deepseek" then Truncated(messages, 4_000)
    else if estimated < 120_000 then Truncated(messages, 6_000)
    else if estimated < 180_000 then Trim(rest, Truncated(messages, 3_000), 100_000)
    else Trim(rest, Truncated(messages, 2_000), 80_000)
  }
}
