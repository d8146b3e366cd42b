/** What trimming keeps (src/context.rs:78-228): the shape of the message list, the pairing of tool
    uses with their results, and that the trimmed body really fits. */
module ContextTheorems {
  import opened Wrappers
  import opened Text
  import opened ContextTrim

  // ----- shape -----

  /** One contiguous block was replaced by one summary: messages 2 to k, never the last 6. */
  ghost predicate CutAt(ms: seq<Message>, out: seq<Message>, k: nat, removed: nat)
  {
    && 2 < k <= |ms| - 6
    && out == ms[..2] + [Summary(k - 2, removed)] + ms[k..]
  }

  function RemovedTokens(ms: seq<Message>, from: nat, to: nat): nat
    requires from <= to <= |ms|
  {
    if from == to then 0 else RemovedTokens(ms, from, to - 1) + Tokens(ms[to - 1])
  }

  /** The last unit removed: the loop was at `p`, not yet done, and took one message or a pair. */
  ghost predicate LastUnit(ms: seq<Message>, from: nat, p: nat, k: nat, base: nat, shed: nat)
  {
    && from <= p < k <= |ms|
    && (k == p + 1 || (k == p + 2 && HasToolUse(ms[p])))
    && base + RemovedTokens(ms, from, p) < shed
  }

  /** Everything the removal loop promises about where it stops. */
  ghost predicate CutFacts(ms: seq<Message>, i: nat, end: nat, base: nat, shed: nat, k: nat, removed: nat)
  {
    && i <= k <= end <= |ms|
    && removed == base + RemovedTokens(ms, i, k)
    && (removed >= shed || k == end || (k + 1 == end && HasToolUse(ms[k])))
    && (k > i ==> exists p :: LastUnit(ms, i, p, k, base, shed))
  }

  lemma {:induction false} RemovedSplit(ms: seq<Message>, a: nat, b: nat, c: nat)
    requires a <= b <= c <= |ms|
    ensures RemovedTokens(ms, a, c) == RemovedTokens(ms, a, b) + RemovedTokens(ms, b, c)
  {
    if c > b { RemovedSplit(ms, a, b, c - 1); }
  }

  ghost predicate CutEndHolds(ms: seq<Message>, i: nat, end: nat, base: nat, shed: nat)
    requires i <= end <= |ms|
  {
    CutFacts(ms, i, end, base, shed, CutEnd(ms, i, end, base, shed).0, CutEnd(ms, i, end, base, shed).1)
  }

  lemma RemovedUnit(ms: seq<Message>, i: nat)
    requires i < |ms|
    ensures RemovedTokens(ms, i, i + 1) == Tokens(ms[i])
    ensures i + 1 < |ms| ==> RemovedTokens(ms, i, i + 2) == Tokens(ms[i]) + Tokens(ms[i + 1])
  {
  }

  lemma {:induction false} CutEndFacts(ms: seq<Message>, i: nat, end: nat, base: nat, shed: nat)
    requires i <= end <= |ms|
    ensures CutEndHolds(ms, i, end, base, shed)
    decreases end - i
  {
    if i < end && base < shed {
      var next := if HasToolUse(ms[i]) then i + 2 else i + 1;
      if next <= end {
        CutEndFacts(ms, next, end, base + RemovedTokens(ms, i, next), shed);
        CutStep(ms, i, next, end, base, shed);
        CutEndNext(ms, i, next, end, base, shed);
      }
    }
  }

  /** One round of the loop, if there is room for it. */
  lemma CutEndNext(ms: seq<Message>, i: nat, next: nat, end: nat, base: nat, shed: nat)
    requires i < next <= end <= |ms| && base < shed && next == if HasToolUse(ms[i]) then i + 2 else i + 1
    ensures CutEnd(ms, i, end, base, shed) == CutEnd(ms, next, end, base + RemovedTokens(ms, i, next), shed)
  {
    RemovedUnit(ms, i);
  }

  /** One removal step, from `i` to `next`. */
  lemma CutStep(ms: seq<Message>, i: nat, next: nat, end: nat, base: nat, shed: nat)
    requires i < next <= end <= |ms| && base < shed
    requires next == i + 1 || (next == i + 2 && HasToolUse(ms[i]))
    requires CutEndHolds(ms, next, end, base + RemovedTokens(ms, i, next), shed)
    ensures var base' := base + RemovedTokens(ms, i, next);
            var (k, removed) := CutEnd(ms, next, end, base', shed);
            CutFacts(ms, i, end, base, shed, k, removed)
  {
    var base' := base + RemovedTokens(ms, i, next);
    var (k, removed) := CutEnd(ms, next, end, base', shed);
    RemovedSplit(ms, i, next, k);
    if k == next {
      assert LastUnit(ms, i, i, k, base, shed);
    } else {
      var p :| LastUnit(ms, next, p, k, base', shed);
      RemovedSplit(ms, i, next, p);
      assert LastUnit(ms, i, p, k, base, shed);
    }
  }

  /** A list longer than 10 that is over target always loses something. */
  lemma TrimShape(rest: nat, ms: seq<Message>, target: nat)
    requires |ms| > 10 && Estimate(rest, Some(ms)) > target
    ensures var (k, removed) := CutOf(rest, ms, target);
            var shed := Estimate(rest, Some(ms)) - target;
            && Trim(rest, Some(ms), target).Some?
            && CutAt(ms, Trim(rest, Some(ms), target).value, k, removed)
            && CutFacts(ms, KEEP_START, |ms| - KEEP_END, 0, shed, k, removed)
  {
    CutEndFacts(ms, KEEP_START, |ms| - KEEP_END, 0, Estimate(rest, Some(ms)) - target);
  }

  /** Trimming leaves a list within target or of at most 10 messages alone; any other becomes its
      first 2 messages, one summary and a suffix with the last 6. */
  lemma TrimLeavesOrCuts(rest: nat, messages: Option<seq<Message>>, target: nat)
    ensures if Estimate(rest, messages) <= target || messages.None? || |messages.value| <= 10
            then Trim(rest, messages, target) == messages
            else && Trim(rest, messages, target).Some?
                 && exists k, removed :: CutAt(messages.value, Trim(rest, messages, target).value, k, removed)
  {
    if !(Estimate(rest, messages) <= target || messages.None? || |messages.value| <= 10) {
      TrimShape(rest, messages.value, target);
    }
  }

  // ----- pairing -----

  predicate HasToolResult(m: Message)
  {
    m.content.Blocks? && AnyKind(m.content.bs, ToolResult)
  }

  function Ids(bs: seq<Block>, kind: BlockKind): multiset<string>
  {
    if bs == [] then multiset{}
    else
      var b := bs[|bs| - 1];
      Ids(bs[..|bs| - 1], kind) + if b.kind == kind then multiset{b.id} else multiset{}
  }

  /** `b` holds the results of exactly the tool uses of `a`. */
  predicate Answers(a: Message, b: Message)
  {
    && a.content.Blocks? && b.content.Blocks? && b.role == Some(User) && HasToolResult(b)
    && Ids(b.content.bs, ToolResult) == Ids(a.content.bs, ToolUse)
  }

  predicate PairedAt(ms: seq<Message>, i: nat)
    requires i < |ms|
  {
    && (HasToolUse(ms[i]) ==> i + 1 < |ms| && Answers(ms[i], ms[i + 1]))
    && (HasToolResult(ms[i]) ==> i > 0 && HasToolUse(ms[i - 1]))
  }

  /** Every message with tool uses is immediately followed by its results, and no results stand
      anywhere else. */
  predicate Paired(ms: seq<Message>)
  {
    forall i :: 0 <= i < |ms| ==> PairedAt(ms, i)
  }

  /** On a paired list the cut never falls between a tool use and its results. */
  lemma {:induction false} CutKeepsPairs(ms: seq<Message>, i: nat, end: nat, removed: nat, shed: nat)
    requires Paired(ms) && 0 < i <= end <= |ms| && !HasToolUse(ms[i - 1])
    ensures !HasToolUse(ms[CutEnd(ms, i, end, removed, shed).0 - 1])
    decreases end - i
  {
    if i < end && removed < shed {
      assert PairedAt(ms, i);
      if !HasToolUse(ms[i]) {
        CutKeepsPairs(ms, i + 1, end, removed + Tokens(ms[i]), shed);
      } else if i + 1 < end {
        assert ms[i + 1].role == Some(User);
        CutKeepsPairs(ms, i + 2, end, removed + Tokens(ms[i]) + Tokens(ms[i + 1]), shed);
      }
    }
  }

  lemma CutPaired(ms: seq<Message>, out: seq<Message>, k: nat, removed: nat)
    requires Paired(ms) && CutAt(ms, out, k, removed) && !HasToolUse(ms[1]) && !HasToolUse(ms[k - 1])
    ensures Paired(out)
  {
    forall j | 0 <= j < |out| ensures PairedAt(out, j) {
      if j < 2 {
        assert PairedAt(ms, j) && out[j] == ms[j];
        if j == 0 { assert out[1] == ms[1]; }
      } else if j > 2 {
        var i := j - 3 + k;
        assert PairedAt(ms, i) && out[j] == ms[i];
        if j > 3 { assert out[j - 1] == ms[i - 1]; }
        if j + 1 < |out| { assert out[j + 1] == ms[i + 1]; }
      }
    }
  }

  /** When a paired list is cut, the result is paired if and only if message 1 has no tool use:
      its results, at index 2, are the first thing to go. */
  lemma TrimKeepsPairingExactly(rest: nat, ms: seq<Message>, target: nat)
    requires Paired(ms) && |ms| > 10 && Estimate(rest, Some(ms)) > target
    ensures Paired(Trim(rest, Some(ms), target).value) <==> !HasToolUse(ms[1])
  {
    TrimShape(rest, ms, target);
    var (k, removed) := CutOf(rest, ms, target);
    var out := Trim(rest, Some(ms), target).value;
    if HasToolUse(ms[1]) {
      assert out[1] == ms[1] && out[2] == Summary(k - KEEP_START, removed);
      assert !PairedAt(out, 1);
    } else {
      CutKeepsPairs(ms, KEEP_START, |ms| - KEEP_END, 0, Estimate(rest, Some(ms)) - target);
      CutPaired(ms, out, k, removed);
    }
  }

  // ----- truncation keeps pairing -----

  lemma {:induction false} TruncateKeepsIds(bs: seq<Block>, maxChars: nat, kind: BlockKind)
    ensures Ids(TruncateBlocks(bs, maxChars), kind) == Ids(bs, kind)
  {
    if bs != [] {
      var k := |bs| - 1;
      TruncateKeepsIds(bs[..k], maxChars, kind);
      assert TruncateBlocks(bs, maxChars)[..k] == TruncateBlocks(bs[..k], maxChars);
    }
  }

  lemma TruncateKeepsKinds(bs: seq<Block>, maxChars: nat, kind: BlockKind)
    ensures AnyKind(TruncateBlocks(bs, maxChars), kind) <==> AnyKind(bs, kind)
  {
    var out := TruncateBlocks(bs, maxChars);
    assert forall i :: 0 <= i < |bs| ==> out[i].kind == bs[i].kind;
  }

  /** Same role, same tool uses and results. */
  ghost predicate SamePairing(a: Message, b: Message)
  {
    && a.role == b.role && (a.content.Blocks? <==> b.content.Blocks?)
    && (a.content.Blocks? ==>
          && (forall kind :: AnyKind(a.content.bs, kind) <==> AnyKind(b.content.bs, kind))
          && (forall kind :: Ids(a.content.bs, kind) == Ids(b.content.bs, kind)))
  }

  lemma TruncateMessageSame(m: Message, maxChars: nat)
    ensures SamePairing(m, TruncateMessage(m, maxChars))
  {
    if m.role == Some(User) && m.content.Blocks? {
      forall kind ensures AnyKind(m.content.bs, kind) <==> AnyKind(TruncateBlocks(m.content.bs, maxChars), kind) {
        TruncateKeepsKinds(m.content.bs, maxChars, kind);
      }
      forall kind ensures Ids(m.content.bs, kind) == Ids(TruncateBlocks(m.content.bs, maxChars), kind) {
        TruncateKeepsIds(m.content.bs, maxChars, kind);
      }
    }
  }

  lemma PairedAtSame(a: seq<Message>, b: seq<Message>, i: nat)
    requires |a| == |b| && i < |a| && PairedAt(a, i)
    requires SamePairing(a[i], b[i]) && (i > 0 ==> SamePairing(a[i - 1], b[i - 1]))
    requires i + 1 < |a| ==> SamePairing(a[i + 1], b[i + 1])
    ensures PairedAt(b, i)
  {
  }

  lemma TruncateKeepsPairing(ms: seq<Message>, maxChars: nat)
    requires Paired(ms)
    ensures Paired(Truncate(ms, maxChars))
    ensures |Truncate(ms, maxChars)| == |ms|
    ensures forall i :: 0 <= i < |ms| ==> SamePairing(ms[i], Truncate(ms, maxChars)[i])
  {
    var out := Truncate(ms, maxChars);
    forall i | 0 <= i < |ms| ensures SamePairing(ms[i], out[i]) {
      TruncateMessageSame(ms[i], maxChars);
    }
    forall i | 0 <= i < |out| ensures PairedAt(out, i) {
      assert PairedAt(ms, i);
      PairedAtSame(ms, out, i);
    }
  }

  /** When trimming cuts anything. */
  predicate TrimCuts(rest: nat, ms: seq<Message>, target: nat)
  {
    |ms| > 10 && Estimate(rest, Some(ms)) > target
  }

  lemma TrimmedPairedExactly(rest: nat, ms: seq<Message>, target: nat)
    requires Paired(ms)
    ensures Trim(rest, Some(ms), target).Some?
    ensures Paired(Trim(rest, Some(ms), target).value) <==> (TrimCuts(rest, ms, target) ==> !HasToolUse(ms[1]))
  {
    if TrimCuts(rest, ms, target) { TrimKeepsPairingExactly(rest, ms, target); }
  }

  lemma TruncatedTrimmedPairedExactly(rest: nat, ms: seq<Message>, maxChars: nat, target: nat)
    requires Paired(ms)
    ensures var out := Trim(rest, Some(Truncate(ms, maxChars)), target);
            && out.Some?
            && (Paired(out.value) <==>
                  (TrimCuts(rest, Truncate(ms, maxChars), target) ==> !HasToolUse(ms[1])))
  {
    TruncateKeepsPairing(ms, maxChars);
    TrimmedPairedExactly(rest, Truncate(ms, maxChars), target);
    if |ms| > 10 { SameToolUse(ms[1], Truncate(ms, maxChars)[1]); }
  }

  lemma SameToolUse(a: Message, b: Message)
    requires SamePairing(a, b)
    ensures HasToolUse(a) <==> HasToolUse(b)
  {
  }

  /** `ensure_fits` cuts exactly a list longer than 10 that is over the limit and, once truncated, still over
      the target. */
  predicate FittingCuts(rest: nat, ms: seq<Message>, limit: nat)
    requires limit >= 5_000
  {
    Estimate(rest, Some(ms)) > limit && TrimCuts(rest, Truncate(ms, 2_000), limit - 5_000)
  }

  /** A paired list stays paired through `ensure_fits` if and only if nothing is cut or message 1 has no
      tool use. */
  lemma FittedPairedExactly(rest: nat, ms: seq<Message>, limit: nat)
    requires limit >= 5_000 && Paired(ms)
    ensures Fitted(rest, Some(ms), limit).Some?
    ensures FittingCuts(rest, ms, limit) ==> |ms| > 10
    ensures Paired(Fitted(rest, Some(ms), limit).value) <==> (FittingCuts(rest, ms, limit) ==> !HasToolUse(ms[1]))
  {
    TruncatedTrimmedPairedExactly(rest, ms, 2_000, limit - 5_000);
  }

  /** `prepare` cuts only from an estimate of 120,000 on. */
  predicate PreparingCuts(rest: nat, ms: seq<Message>)
  {
    var estimated := Estimate(rest, Some(ms));
    if estimated < 120_000 then false
    else if estimated < 180_000 then TrimCuts(rest, Truncate(ms, 3_000), 100_000)
    else TrimCuts(rest, Truncate(ms, 2_000), 80_000)
  }

  /** And through `prepare` if and only if the same holds of its cut. */
  lemma PreparedPairedExactly(rest: nat, ms: seq<Message>, provider: string)
    requires Paired(ms)
    ensures Prepared(rest, Some(ms), provider).Some?
    ensures PreparingCuts(rest, ms) ==> |ms| > 10
    ensures Paired(Prepared(rest, Some(ms), provider).value) <==> (PreparingCuts(rest, ms) ==> !HasToolUse(ms[1]))
  {
    TruncateKeepsPairing(ms, 4_000);
    TruncateKeepsPairing(ms, 6_000);
    TruncatedTrimmedPairedExactly(rest, ms, 3_000, 100_000);
    TruncatedTrimmedPairedExactly(rest, ms, 2_000, 80_000);
  }

  // ----- the trimmed body fits -----

  const USIZE: nat := 0x1_0000_0000_0000_0000

  function Pow10(k: nat): nat
  {
    if k == 0 then 1 else 10 * Pow10(k - 1)
  }

  lemma {:induction false} DecLength(n: nat, k: nat)
    requires k > 0 && n < Pow10(k)
    ensures |Dec(n)| <= k
  {
    if n >= 10 { DecLength(n / 10, k - 1); }
  }

  /** A usize prints to at most 20 digits. */
  lemma UsizeDigits(n: nat)
    requires n < USIZE
    ensures |Dec(n)| <= 20
  {
    assert Pow10(4) == 10_000 by { assert Pow10(2) == 100; }
    assert Pow10(8) == 100_000_000 by { assert Pow10(6) == 1_000_000; }
    assert Pow10(12) == 1_000_000_000_000 by { assert Pow10(10) == 10_000_000_000; }
    assert Pow10(16) == 10_000_000_000_000_000 by { assert Pow10(14) == 100_000_000_000_000; }
    assert Pow10(20) == 100_000_000_000_000_000_000 by { assert Pow10(18) == 1_000_000_000_000_000_000; }
    DecLength(n, 20);
  }

  lemma {:induction false} EscapedAppend(a: string, b: string)
    ensures EscapedSize(a + b) == EscapedSize(a) + EscapedSize(b)
  {
    if b == "" {
      assert a + b == a;
    } else {
      assert (a + b)[..|a + b| - 1] == a + b[..|b| - 1];
      EscapedAppend(a, b[..|b| - 1]);
    }
  }

  predicate PlainText(s: string)
  {
    forall i :: 0 <= i < |s| ==> CharSize(s[i]) == 1
  }

  lemma {:induction false} PlainSize(s: string)
    requires PlainText(s)
    ensures EscapedSize(s) == |s|
  {
    if s != "" { PlainSize(s[..|s| - 1]); }
  }

  lemma {:induction false} DecPlain(n: nat)
    ensures PlainText(Dec(n))
  {
    if n >= 10 { DecPlain(n / 10); }
  }

  lemma PlainJoin(a: string, b: string)
    requires PlainText(a) && PlainText(b)
    ensures PlainText(a + b)
  {
  }

  lemma SummaryPlain(count: nat, removed: nat)
    ensures PlainText(SummaryText(count, removed))
    ensures |SummaryText(count, removed)| == 64 + |Dec(count)| + |Dec(removed)|
  {
    var a, b, c := "[Context management: ", " earlier messages removed to save ~", " tokens]";
    DecPlain(count);
    DecPlain(removed);
    PlainJoin(a, Dec(count));
    PlainJoin(a + Dec(count), b);
    PlainJoin(a + Dec(count) + b, Dec(removed));
    PlainJoin(a + Dec(count) + b + Dec(removed), c);
  }

  lemma SummarySize(count: nat, removed: nat)
    requires count < USIZE && removed < USIZE
    ensures Size(Summary(count, removed)) <= 160
  {
    UsizeDigits(count);
    UsizeDigits(removed);
    SummaryPlain(count, removed);
    PlainSize(SummaryText(count, removed));
  }

  lemma {:induction false} SizesAppend(a: seq<Message>, b: seq<Message>)
    ensures Sizes(a + b) == Sizes(a) + Sizes(b)
  {
    if b == [] {
      assert a + b == a;
    } else {
      assert (a + b)[..|a + b| - 1] == a + b[..|b| - 1];
      SizesAppend(a, b[..|b| - 1]);
    }
  }

  /** Floor division only ever undercounts what is removed. */
  lemma {:induction false} RemovedBytes(ms: seq<Message>, from: nat, to: nat)
    requires from <= to <= |ms|
    ensures 4 * RemovedTokens(ms, from, to) <= Sizes(ms[from..to])
  {
    if from < to {
      RemovedBytes(ms, from, to - 1);
      assert ms[from..to][..to - 1 - from] == ms[from..to - 1];
      TokenBytes(ms[to - 1]);
    }
  }

  lemma TokenBytes(m: Message)
    ensures 4 * Tokens(m) <= Size(m)
  {
  }

  lemma SizesSplit(ms: seq<Message>, i: nat, k: nat)
    requires i <= k <= |ms|
    ensures Sizes(ms) == Sizes(ms[..i]) + Sizes(ms[i..k]) + Sizes(ms[k..])
  {
    SizesSplitOnce(ms[..k], i);
    SizesSplitOnce(ms, k);
    assert ms[..k][..i] == ms[..i] && ms[..k][i..] == ms[i..k];
  }

  lemma SizesSplitOnce(ms: seq<Message>, i: nat)
    requires i <= |ms|
    ensures Sizes(ms) == Sizes(ms[..i]) + Sizes(ms[i..])
  {
    assert ms[..i] + ms[i..] == ms;
    SizesAppend(ms[..i], ms[i..]);
  }

  lemma SizesJoin(a: seq<Message>, m: Message, c: seq<Message>)
    ensures Sizes(a + [m] + c) == Sizes(a) + Size(m) + Sizes(c)
  {
    SizesAppend(a + [m], c);
    assert (a + [m])[..|a|] == a;
  }

  lemma CutSizes(ms: seq<Message>, out: seq<Message>, k: nat, removed: nat)
    requires CutAt(ms, out, k, removed)
    ensures Sizes(out) + Sizes(ms[KEEP_START..k]) == Sizes(ms) + Size(Summary(k - KEEP_START, removed))
    ensures |out| == |ms| - (k - KEEP_START) + 1
  {
    SizesSplit(ms, KEEP_START, k);
    SizesJoin(ms[..KEEP_START], Summary(k - KEEP_START, removed), ms[k..]);
  }

  /** If the removed estimate reaches the amount to shed, the body is within target plus 40 tokens:
      what the summary and its comma can add. */
  lemma CutFits(rest: nat, ms: seq<Message>, out: seq<Message>, target: nat, k: nat, removed: nat)
    requires CutAt(ms, out, k, removed) && removed == RemovedTokens(ms, KEEP_START, k)
    requires Estimate(rest, Some(ms)) > target && removed >= Estimate(rest, Some(ms)) - target
    requires BodySize(rest, Some(ms)) < USIZE
    ensures Estimate(rest, Some(out)) <= target + 40
  {
    CutSizes(ms, out, k, removed);
    RemovedBytes(ms, KEEP_START, k);
    SizesSplit(ms, KEEP_START, k);
    SummarySize(k - KEEP_START, removed);
  }

  /** All that may be removed has been: the cut reached the last 6 messages, or a tool use just before
      them whose results are among them. */
  ghost predicate NothingMore(ms: seq<Message>, k: nat)
  {
    k + KEEP_END <= |ms| && (k + KEEP_END == |ms| || (k + 1 + KEEP_END == |ms| && HasToolUse(ms[k])))
  }

  /** `ensure_fits` really fits: afterwards the body is within the provider's limit, or the list had
      at most 10 messages, or every message that may be removed was removed, up to a final tool use
      whose results must stay. (Printed sizes are usize values.) */
  lemma FittedFits(rest: nat, messages: Option<seq<Message>>, limit: nat)
    requires limit >= 5_000
    requires BodySize(rest, Truncated(messages, 2_000)) < USIZE
    ensures var out := Fitted(rest, messages, limit);
            var ms := Truncated(messages, 2_000);
            || Estimate(rest, out) <= limit
            || messages.None? || |messages.value| <= 10
            || (out.Some? && CutToTheEnd(ms.value, out.value))
  {
    if Estimate(rest, messages) > limit && messages.Some? && |messages.value| > 10 {
      var ms := Truncate(messages.value, 2_000);
      if Estimate(rest, Some(ms)) > limit - 5_000 { TrimFits(rest, ms, limit - 5_000); }
    }
  }

  /** Cut until nothing more could be removed. */
  ghost predicate CutToTheEnd(ms: seq<Message>, out: seq<Message>)
  {
    exists removed: nat, k: nat :: CutAt(ms, out, k, removed) && NothingMore(ms, k)
  }

  lemma TrimFits(rest: nat, ms: seq<Message>, target: nat)
    requires |ms| > 10 && Estimate(rest, Some(ms)) > target && BodySize(rest, Some(ms)) < USIZE
    ensures var out := Trim(rest, Some(ms), target);
            out.Some? && (Estimate(rest, out) <= target + 40 || CutToTheEnd(ms, out.value))
  {
    TrimShape(rest, ms, target);
    var (k, removed) := CutOf(rest, ms, target);
    if removed >= Estimate(rest, Some(ms)) - target {
      CutFits(rest, ms, Trim(rest, Some(ms), target).value, target, k, removed);
    } else {
      assert NothingMore(ms, k);
    }
  }

  /** The cut is minimal: without its last message or pair it would not have reached the amount to
      shed. */
  lemma CutIsMinimal(rest: nat, ms: seq<Message>, target: nat)
    requires |ms| > 10 && Estimate(rest, Some(ms)) > target
    ensures var k := CutOf(rest, ms, target).0;
            var shed := Estimate(rest, Some(ms)) - target;
            exists p :: LastUnit(ms, KEEP_START, p, k, 0, shed)
  {
    TrimShape(rest, ms, target);
  }

  // ----- truncation can grow a result -----

  const MARKER: nat := 45

  /** Truncating a long result shortens it exactly when more is cut off than the marker adds. */
  lemma TruncateShortensExactly(text: string, maxChars: nat)
    requires |text| > maxChars
    ensures var gone := |text| - LastNewline(text, maxChars);
            |TruncateText(text, maxChars)| < |text| <==> gone > MARKER + |Dec(gone)|
  {
    assert |"\n[..."| == 5 && |" chars truncated for context management]"| == 40;
  }

  lemma {:induction false} NoNewline(s: string, i: nat, none: nat)
    requires i <= |s| && i <= none
    requires forall k :: 0 <= k < i ==> s[k] != '\n'
    ensures LastNewlineFrom(s, i, none) == none
  {
    if i > 0 { NoNewline(s, i - 1, none); }
  }

  /** A line fewer than ten characters over the limit loses only those, and gains 46. */
  lemma TruncateGrows(text: string, maxChars: nat)
    requires maxChars < |text| < maxChars + 10
    requires forall k :: 0 <= k < maxChars ==> text[k] != '\n'
    ensures |TruncateText(text, maxChars)| == maxChars + MARKER + 1
    ensures |TruncateText(text, maxChars)| > |text|
  {
    NoNewline(text, maxChars, maxChars);
    assert |"\n[..."| == 5 && |" chars truncated for context management]"| == 40;
  }
}
