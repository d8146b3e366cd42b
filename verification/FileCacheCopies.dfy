/** Whether the model can still see the text that a marker stands for (src/file_cache.rs:109-278): a
    marker says "unchanged since last read", but the last read may have been sent in an earlier request. */
module FileCacheCopies {
  import opened Wrappers
  import opened Lists
  import opened FileCacheRequests
  import opened FileCacheTheorems

  // ----- which event is a block's -----

  /** How many of the blocks are looked at; each has its event, in order. */
  function LookedAt(files: map<string, string>, bs: seq<Block>): nat
  {
    if bs == [] then 0
    else LookedAt(files, bs[..|bs| - 1]) + if Matched(files, bs[|bs| - 1]).Some? then 1 else 0
  }

  /** The event of block b, if it is looked at. */
  function EventIndex(files: map<string, string>, bs: seq<Block>, b: nat): nat
    requires b <= |bs|
  {
    LookedAt(files, bs[..b])
  }

  lemma EventIndexFront(files: map<string, string>, bs: seq<Block>, k: nat, b: nat)
    requires b <= k <= |bs|
    ensures EventIndex(files, bs[..k], b) == EventIndex(files, bs, b)
  {
    assert bs[..k][..b] == bs[..b];
  }

  lemma EventIndexNext(files: map<string, string>, bs: seq<Block>, b: nat)
    requires b < |bs|
    ensures EventIndex(files, bs, b + 1) == EventIndex(files, bs, b) + if Matched(files, bs[b]).Some? then 1 else 0
  {
    assert bs[..b + 1][..b] == bs[..b];
  }

  lemma {:induction false} EventIndexRises(files: map<string, string>, bs: seq<Block>, a: nat, b: nat)
    requires a <= b <= |bs|
    ensures EventIndex(files, bs, a) <= EventIndex(files, bs, b)
    ensures a < b && Matched(files, bs[a]).Some? ==> EventIndex(files, bs, a) < EventIndex(files, bs, b)
    decreases b - a
  {
    if a < b {
      EventIndexNext(files, bs, a);
      EventIndexRises(files, bs, a + 1, b);
    }
  }

  /** The event of a block is its own. */
  lemma {:induction false} AccountAt(files: map<string, string>, bs: seq<Block>, out: seq<Block>, events: seq<Event>,
                                     b: nat)
    requires Account(files, bs, out, events) && b < |bs| && Matched(files, bs[b]).Some?
    ensures EventIndex(files, bs, b) < |events| && Dealt(files, bs[b], out[b], events[EventIndex(files, bs, b)])
    decreases |bs|
  {
    var k := |bs| - 1;
    var before := if Matched(files, bs[k]).None? then events else events[..|events| - 1];
    if b < k {
      AccountAt(files, bs[..k], out[..k], before, b);
      EventIndexFront(files, bs, k, b);
    } else {
      AccountLength(files, bs[..k], out[..k], before);
    }
  }

  lemma EventOfBlock(files: map<string, string>, bs: seq<Block>, out: seq<Block>, events: seq<Event>, b: nat)
    requires Account(files, bs, out, events) && b < |bs| && Matched(files, bs[b]).Some?
    ensures var k := EventIndex(files, bs, b);
            k < |events| && events[k].path == files[bs[b].id] && events[k].content == Matched(files, bs[b]).value
  {
    AccountAt(files, bs, out, events, b);
  }

  lemma {:induction false} AccountLength(files: map<string, string>, bs: seq<Block>, out: seq<Block>,
                                         events: seq<Event>)
    requires Account(files, bs, out, events)
    ensures |events| == LookedAt(files, bs)
    decreases |bs|
  {
    if bs != [] {
      var k := |bs| - 1;
      AccountLength(files, bs[..k], out[..k], if Matched(files, bs[k]).None? then events else events[..|events| - 1]);
    }
  }

  /** Every event has its block. */
  lemma {:induction false} BlockOfEvent(files: map<string, string>, bs: seq<Block>, b: nat, i: nat) returns (a: nat)
    requires b <= |bs| && i < EventIndex(files, bs, b)
    ensures a < b && Matched(files, bs[a]).Some? && EventIndex(files, bs, a) == i
  {
    EventIndexNext(files, bs, b - 1);
    a := b - 1;
    if i < EventIndex(files, bs, b - 1) { a := BlockOfEvent(files, bs, b - 1, i); }
  }

  ghost predicate CachedIn(events: seq<Event>, path: string)
  {
    exists i :: 0 <= i < |events| && Caches(events[i], path)
  }

  // ----- does the text still stand -----

  ghost predicate IsMarkerText(text: string)
  {
    exists len: nat :: text == Marker(len)
  }

  /** An earlier result of the same file still carries the text of result b. */
  ghost predicate StandsAt(files: map<string, string>, bs: seq<Block>, out: seq<Block>, a: nat, b: nat)
  {
    && a < b < |bs| == |out|
    && Matched(files, bs[a]).Some? && bs[b].ToolResult? && bs[b].id in files && files[bs[a].id] == files[bs[b].id]
    && out[a].ToolResult? && TextOf(out[a].content) == TextOf(bs[b].content)
  }

  ghost predicate StandsEarlier(files: map<string, string>, bs: seq<Block>, out: seq<Block>, b: nat)
  {
    exists a: nat :: StandsAt(files, bs, out, a, b)
  }

  /** A marked result reads as its marker. */
  lemma MarkedText(files: map<string, string>, b: Block, o: Block, e: Event)
    requires Matched(files, b).Some? && Dealt(files, b, o, e) && e.Marked?
    ensures o.ToolResult? && TextOf(o.content) == Some(Marker(e.originalLen))
  {
    var p := Part(true, Some(Marker(e.originalLen)));
    FlatMapOne(PartText, p);
  }

  /** What was cached in this request is what an earlier result of it carried, and still carries. */
  lemma CachedHereStands(files: map<string, string>, bs: seq<Block>, out: seq<Block>, events: seq<Event>, b: nat, i: nat)
    requires Account(files, bs, out, events) && b < |bs| && Matched(files, bs[b]).Some?
    requires i < EventIndex(files, bs, b) <= |events|
    requires !events[i].Marked? && events[i].path == files[bs[b].id] && events[i].content == Matched(files, bs[b]).value
    ensures StandsEarlier(files, bs, out, b)
  {
    var a := BlockOfEvent(files, bs, b, i);
    AccountAt(files, bs, out, events, a);
    assert StandsAt(files, bs, out, a, b);
  }

  /** And a text that still stands was cached in this request. */
  lemma StandsCachedHere(files: map<string, string>, bs: seq<Block>, out: seq<Block>, events: seq<Event>, b: nat,
                         k: nat, path: string)
    requires Account(files, bs, out, events) && b < |bs| && Matched(files, bs[b]).Some?
    requires k == EventIndex(files, bs, b) <= |events| && path == files[bs[b].id]
    requires !IsMarkerText(Matched(files, bs[b]).value) && StandsEarlier(files, bs, out, b)
    ensures CachedIn(events[..k], path)
  {
    var a: nat :| StandsAt(files, bs, out, a, b);
    AccountAt(files, bs, out, events, a);
    EventIndexRises(files, bs, a, b);
    var i := EventIndex(files, bs, a);
    if events[i].Marked? {
      MarkedText(files, bs[a], out[a], events[i]);
      assert IsMarkerText(Matched(files, bs[b]).value);
    }
    assert Caches(events[..k][i], path);
  }

  // ----- if and only if -----

  /** Where in the log the event of block b of the next request is. */
  function LogIndex(p: Progress, ms: seq<Message>, b: nat): nat
    requires b <= |Flat(Older(ms))|
  {
    |p.log| + EventIndex(ReadsOf(ms), Flat(Older(ms)), b)
  }

  lemma LogParts(log: seq<Event>, events: seq<Event>, stored: seq<Event>, i: nat)
    requires i < |events|
    ensures (log + events + stored)[|log| + i] == events[i]
    ensures (log + events + stored)[..|log| + i] == log + events[..i]
  {
  }

  lemma LastCachedHere(log: seq<Event>, events: seq<Event>, path: string)
    ensures LastCached(log + events, path) >= |log| <==> CachedIn(events, path)
  {
    var all := log + events;
    if i :| 0 <= i < |events| && Caches(events[i], path) {
      assert all[|log| + i] == events[i];
    }
    var j := LastCached(all, path);
    if j >= |log| { assert Caches(events[j - |log|], path); }
  }

  /** After every sequence of requests, a result of the next one that is replaced by a marker, and is not
      itself a marker's text, can still be read earlier in what is sent, under the same path, if and only if
      the result that cached it last is in this same request. */
  lemma CopyStandsExactly(n: nat, hash: string -> int, requests: seq<seq<Message>>, p: Progress,
                          ms: seq<Message>, p': Progress, out: seq<Message>, b: nat)
    requires CollisionFree(hash)
    requires p == ApplyAll(n, hash, requests) && (p', out) == Apply(n, hash, p, ms)
    requires b < |Flat(Older(ms))| && Matched(ReadsOf(ms), Flat(Older(ms))[b]).Some?
    requires !IsMarkerText(Matched(ReadsOf(ms), Flat(Older(ms))[b]).value)
    requires LogIndex(p, ms, b) < |p'.log| && p'.log[LogIndex(p, ms, b)].Marked?
    ensures StandsEarlier(ReadsOf(ms), Flat(Older(ms)), Flat(Older(out)), b) <==>
            LastCached(p'.log[..LogIndex(p, ms, b)], ReadsOf(ms)[Flat(Older(ms))[b].id]) >= |p.log|
  {
    ApplyAllConsistent(n, hash, requests);
    ApplyConsistent(n, hash, p, ms);
    var (files, bs) := (ReadsOf(ms), Flat(Older(ms)));
    var events := ApplyOutcome(n, hash, p, ms);
    CopyStandsIn(n, hash, p.log, p', files, bs, Flat(Older(out)), events, StoredOf(ms), b, LogIndex(p, ms, b), files[bs[b].id]);
  }

  lemma CopyStandsIn(n: nat, hash: string -> int, log: seq<Event>, p: Progress, files: map<string, string>,
                     bs: seq<Block>, out: seq<Block>, events: seq<Event>, stored: seq<Event>, b: nat, i: nat,
                     path: string)
    requires CollisionFree(hash) && Consistent(n, hash, p) && p.log == log + events + stored
    requires Account(files, bs, out, events) && b < |bs| && Matched(files, bs[b]).Some?
    requires !IsMarkerText(Matched(files, bs[b]).value)
    requires i == |log| + EventIndex(files, bs, b) && path == files[bs[b].id]
    requires i < |p.log| && p.log[i].Marked?
    ensures StandsEarlier(files, bs, out, b) <==> LastCached(p.log[..i], path) >= |log|
  {
    var k := EventIndex(files, bs, b);
    EventOfBlock(files, bs, out, events, b);
    MarkedCarried(n, hash, p, log, events, stored, k, i);
    CopyStands(log, files, bs, out, events, b, k, path, p.log[..i]);
  }

  /** The last result of this file that was cached carried this text. */
  ghost predicate LastCarried(log: seq<Event>, path: string, text: string)
  {
    var j := LastCached(log, path);
    j >= 0 && log[j].content == text
  }

  lemma MarkedCarried(n: nat, hash: string -> int, p: Progress, log: seq<Event>, events: seq<Event>,
                      stored: seq<Event>, k: nat, i: nat)
    requires CollisionFree(hash) && Consistent(n, hash, p)
    requires p.log == log + events + stored && k < |events| && i == |log| + k && p.log[i].Marked?
    ensures p.log[..i] == log + events[..k]
    ensures LastCarried(p.log[..i], events[k].path, events[k].content)
  {
    LogParts(log, events, stored, k);
    MarkerIsTruthful(n, hash, p, i);
  }

  lemma CopyStands(log: seq<Event>, files: map<string, string>, bs: seq<Block>, out: seq<Block>, events: seq<Event>,
                   b: nat, k: nat, path: string, before: seq<Event>)
    requires Account(files, bs, out, events) && b < |bs| && Matched(files, bs[b]).Some?
    requires k == EventIndex(files, bs, b) <= |events| && path == files[bs[b].id] && before == log + events[..k]
    requires !IsMarkerText(Matched(files, bs[b]).value)
    requires LastCarried(before, path, Matched(files, bs[b]).value)
    ensures StandsEarlier(files, bs, out, b) <==> LastCached(before, path) >= |log|
  {
    LastCachedHere(log, events[..k], path);
    if StandsEarlier(files, bs, out, b) { StandsCachedHere(files, bs, out, events, b, k, path); }
    if CachedIn(events[..k], path) { HereStands(log, files, bs, out, events, b, k, path, before); }
  }

  lemma HereStands(log: seq<Event>, files: map<string, string>, bs: seq<Block>, out: seq<Block>, events: seq<Event>,
                   b: nat, k: nat, path: string, before: seq<Event>)
    requires Account(files, bs, out, events) && b < |bs| && Matched(files, bs[b]).Some?
    requires k == EventIndex(files, bs, b) <= |events| && path == files[bs[b].id] && before == log + events[..k]
    requires LastCarried(before, path, Matched(files, bs[b]).value) && LastCached(before, path) >= |log|
    ensures StandsEarlier(files, bs, out, b)
  {
    LastIsInRequest(log, events, k, path);
    CachedHereStands(files, bs, out, events, b, LastCached(before, path) - |log|);
  }

  lemma LastIsInRequest(log: seq<Event>, events: seq<Event>, k: nat, path: string)
    requires k <= |events| && LastCached(log + events[..k], path) >= |log|
    ensures var j := LastCached(log + events[..k], path);
            0 <= j - |log| < k && events[j - |log|] == (log + events[..k])[j]
  {
  }

  // ----- the same conversation sent again -----

  function Reading(id: string, path: string, text: string, rest: seq<Message>): seq<Message>
  {
    [Call(id, path), Answer(id, text)] + rest
  }

  function Call(id: string, path: string): Message
  {
    Message(Assistant, Some([ToolUse(id, path, path)]))
  }

  function Answer(id: string, text: string): Message
  {
    Message(User, Some([ToolResult(id, ResultText(text))]))
  }

  /** Two later messages that read no file. */
  const LATER := [Message(Assistant, None), Message(User, None)]

  lemma ReadingFiles(id: string, path: string, text: string)
    requires id != "" && path != ""
    ensures ToMap(FlatMap(OldReadsIn, [Call(id, path), Answer(id, text)])) == map[id := path]
  {
    var use := ToolUse(id, path, path);
    FlatMapOne(OldReads, use);
    FlatMapOne(OldReadsIn, Call(id, path));
    FlatMapAppend(OldReadsIn, [Call(id, path)], [Answer(id, text)]);
    FlatMapOne(OldReadsIn, Answer(id, text));
    NoMore([(id, path)]);
    assert [(id, path)][..0] == [];
    assert [Call(id, path), Answer(id, text)] == [Call(id, path)] + [Answer(id, text)];
  }

  /** The two old messages of such a request: the answer's one block is dealt with. */
  lemma ReadingOlder(n: nat, hash: string -> int, files: map<string, string>, p: Progress, id: string, path: string,
                     text: string)
    ensures var (p', o) := OldBlock(n, hash, files, p, ToolResult(id, ResultText(text)));
            OldMessages(n, hash, files, p, [Call(id, path), Answer(id, text)]) ==
            (p', [Call(id, path), Message(User, Some([o]))])
  {
    var b := ToolResult(id, ResultText(text));
    assert [Call(id, path), Answer(id, text)] == [Call(id, path)] + [Answer(id, text)];
    CallAlone(n, hash, files, p, id, path);
    OneBlock(n, hash, files, p, b);
    OneMoreMessage(n, hash, files, p, [Call(id, path)], Answer(id, text));
    var last := Message(User, Some([OldBlock(n, hash, files, p, b).1]));
    assert [Call(id, path)] + [last] == [Call(id, path), last];
  }

  lemma OneMoreMessage(n: nat, hash: string -> int, files: map<string, string>, p: Progress, ms: seq<Message>, m: Message)
    ensures var (p1, before) := OldMessages(n, hash, files, p, ms);
            var (p2, last) := OldMessage(n, hash, files, p1, m);
            OldMessages(n, hash, files, p, ms + [m]) == (p2, before + [last])
  {
    assert (ms + [m])[..|ms|] == ms;
  }

  lemma CallAlone(n: nat, hash: string -> int, files: map<string, string>, p: Progress, id: string, path: string)
    ensures OldMessages(n, hash, files, p, [Call(id, path)]) == (p, [Call(id, path)])
  {
    var m := Call(id, path);
    assert [m][..0] == [] && [m][0] == m;
    assert OldMessages(n, hash, files, p, [m][..0]) == (p, []);
    assert OldMessage(n, hash, files, p, m) == (p, m);
    var none: seq<Message> := [];
    assert none + [m] == [m];
  }

  lemma OneBlock(n: nat, hash: string -> int, files: map<string, string>, p: Progress, b: Block)
    ensures OldBlocks(n, hash, files, p, [b]) == (OldBlock(n, hash, files, p, b).0, [OldBlock(n, hash, files, p, b).1])
  {
    assert [b][..0] == [];
    assert OldBlocks(n, hash, files, p, [b][..0]) == (p, []);
    var none: seq<Block> := [];
    assert none + [OldBlock(n, hash, files, p, b).1] == [OldBlock(n, hash, files, p, b).1];
  }

  lemma LaterReadsNothing()
    ensures FlatMap(UserBlocks, LATER) == []
  {
    FlatMapAppend(UserBlocks, [LATER[0]], [LATER[1]]);
    FlatMapOne(UserBlocks, LATER[0]);
    FlatMapOne(UserBlocks, LATER[1]);
    assert LATER == [LATER[0]] + [LATER[1]];
  }

  lemma ReadingApplied(n: nat, hash: string -> int, p: Progress, id: string, path: string, text: string)
    requires id != "" && path != ""
    ensures var (p', o) := OldBlock(n, hash, map[id := path], p.(stats := Stats(0, 0, 0)), ToolResult(id, ResultText(text)));
            Apply(n, hash, p, Reading(id, path, text, LATER)) ==
            (p', [Call(id, path), Message(User, Some([o]))] + LATER)
  {
    var ms := Reading(id, path, text, LATER);
    assert ms[..2] == [Call(id, path), Answer(id, text)] && ms[2..] == LATER;
    ReadingFiles(id, path, text);
    ReadingOlder(n, hash, map[id := path], p.(stats := Stats(0, 0, 0)), id, path, text);
    LaterReadsNothing();
  }

  /** The same conversation sent twice, which is what a client does as it goes on: the first time the file's
      text is kept; the second time the only result that carries it is replaced by a marker. */
  lemma OnlyCopyReplaced(n: nat, hash: string -> int, id: string, path: string, text: string)
    requires id != "" && path != "" && |text| >= MIN_SIZE
    ensures var ms := Reading(id, path, text, LATER);
            var p := ApplyAll(n, hash, [ms]);
            && Apply(n, hash, ApplyAll(n, hash, []), ms) == (p, ms)
            && p.log == [Kept(path, text)]
            && Apply(n, hash, p, ms).0.log == p.log + [Marked(path, text, |text|)]
            && Apply(n, hash, p, ms).1 == Reading(id, path, Marker(|text|), LATER)
  {
    var ms := Reading(id, path, text, LATER);
    assert [ms][..0] == [];
    ReadingApplied(n, hash, ApplyAll(n, hash, []), id, path, text);
    ReadingApplied(n, hash, ApplyAll(n, hash, [ms]), id, path, text);
  }
}
