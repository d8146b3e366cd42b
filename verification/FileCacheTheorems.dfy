/** What rewriting requests with the file cache does, over any sequence of requests
    (src/file_cache.rs:109-278). */
module FileCacheTheorems {
  import opened Lists
  import opened FileCaching
  import opened FileCacheRequests

  // ----- what one request changes -----

  /** What the first pass did, in order: one event for each result of a file read, with its path and text.
      The result became a marker exactly when its event says so; every other block is as it was. */
  ghost predicate Account(files: map<string, string>, bs: seq<Block>, out: seq<Block>, events: seq<Event>)
    decreases |bs|
  {
    |out| == |bs| &&
    if bs == [] then events == []
    else
      var k := |bs| - 1;
      if Matched(files, bs[k]).None? then out[k] == bs[k] && Account(files, bs[..k], out[..k], events)
      else
        && events != []
        && Dealt(files, bs[k], out[k], events[|events| - 1])
        && Account(files, bs[..k], out[..k], events[..|events| - 1])
  }

  ghost predicate Dealt(files: map<string, string>, b: Block, o: Block, e: Event)
    requires Matched(files, b).Some?
  {
    && e.path == files[b.id] && e.content == Matched(files, b).value
    && match e
       case Kept(_, _) => o == b
       case Marked(_, _, len) => o == b.(content := Replace(b.content, len))
       case Stored(_, _) => false
  }

  function Tally(events: seq<Event>): Stats
  {
    if events == [] then Stats(0, 0, 0)
    else
      var t := Tally(events[..|events| - 1]);
      match events[|events| - 1]
      case Marked(_, content, len) => Stats(t.checked + 1, t.hits + 1, t.saved + Saved(content, len))
      case _ => t.(checked := t.checked + 1)
  }

  function Plus(a: Stats, b: Stats): Stats
  {
    Stats(a.checked + b.checked, a.hits + b.hits, a.saved + b.saved)
  }

  /** From `p` to `p'` the events were logged, and counted. */
  ghost predicate Logged(p: Progress, p': Progress, events: seq<Event>)
  {
    p'.log == p.log + events && p'.stats == Plus(p.stats, Tally(events))
  }

  lemma {:induction false} TallyAppend(a: seq<Event>, b: seq<Event>)
    ensures Tally(a + b) == Plus(Tally(a), Tally(b))
  {
    if b == [] {
      NoMore(a);
    } else {
      var k := |b| - 1;
      assert b == b[..k] + [b[k]];
      Regroup(a, b[..k], [b[k]]);
      TallyAppend(a, b[..k]);
    }
  }

  lemma LoggedTwice(p: Progress, p1: Progress, p2: Progress, a: seq<Event>, b: seq<Event>)
    requires Logged(p, p1, a) && Logged(p1, p2, b)
    ensures Logged(p, p2, a + b)
  {
    Regroup(p.log, a, b);
    TallyAppend(a, b);
  }

  lemma NothingLogged(p: Progress)
    ensures Logged(p, p, [])
  {
    NoMore(p.log);
  }

  lemma AccountStep(files: map<string, string>, bs: seq<Block>, out: seq<Block>, events: seq<Event>, b: Block, o: Block)
    requires Account(files, bs, out, events)
    ensures Matched(files, b).None? && o == b ==> Account(files, bs + [b], out + [o], events)
    ensures forall e :: Matched(files, b).Some? && Dealt(files, b, o, e) ==> Account(files, bs + [b], out + [o], events + [e])
  {
    assert (bs + [b])[..|bs|] == bs && (out + [o])[..|bs|] == out;
    forall e | Matched(files, b).Some? && Dealt(files, b, o, e)
      ensures Account(files, bs + [b], out + [o], events + [e])
    {
      assert (events + [e])[..|events|] == events;
    }
  }

  lemma {:induction false} AccountAppend(files: map<string, string>, a: seq<Block>, a': seq<Block>, x: seq<Event>,
                                         b: seq<Block>, b': seq<Block>, y: seq<Event>)
    requires Account(files, a, a', x) && Account(files, b, b', y)
    ensures Account(files, a + b, a' + b', x + y)
    decreases |b|
  {
    if b == [] {
      NoMore(a);
      NoMore(a');
      NoMore(x);
    } else {
      var k := |b| - 1;
      assert b == b[..k] + [b[k]] && b' == b'[..k] + [b'[k]];
      Regroup(a, b[..k], [b[k]]);
      Regroup(a', b'[..k], [b'[k]]);
      if Matched(files, b[k]).None? {
        AccountAppend(files, a, a', x, b[..k], b'[..k], y);
        AccountStep(files, a + b[..k], a' + b'[..k], x + y, b[k], b'[k]);
      } else {
        var j := |y| - 1;
        assert y == y[..j] + [y[j]];
        Regroup(x, y[..j], [y[j]]);
        AccountAppend(files, a, a', x, b[..k], b'[..k], y[..j]);
        AccountStep(files, a + b[..k], a' + b'[..k], x + y[..j], b[k], b'[k]);
      }
    }
  }

  /** One block of the first pass. */
  lemma OldBlockDealt(n: nat, hash: string -> int, files: map<string, string>, p: Progress, b: Block)
    returns (events: seq<Event>)
    ensures var (p', o) := OldBlock(n, hash, files, p, b);
            && Logged(p, p', events)
            && if Matched(files, b).None? then o == b && events == []
               else |events| == 1 && Dealt(files, b, o, events[0])
  {
    var text := Matched(files, b);
    if text.None? {
      events := [];
      NothingLogged(p);
    } else {
      var path, content := files[b.id], text.value;
      events := match Check(p.cache, path, hash(content))
        case Unchanged(len) => [Marked(path, content, len)]
        case _ => [Kept(path, content)];
      assert events[..0] == [];
    }
  }

  lemma {:induction false} OldBlocksAccount(n: nat, hash: string -> int, files: map<string, string>,
                                            p: Progress, bs: seq<Block>)
    returns (events: seq<Event>)
    ensures var (p', out) := OldBlocks(n, hash, files, p, bs);
            Logged(p, p', events) && Account(files, bs, out, events)
  {
    if bs == [] {
      events := [];
      NothingLogged(p);
    } else {
      var k := |bs| - 1;
      assert bs == bs[..k] + [bs[k]];
      var x := OldBlocksAccount(n, hash, files, p, bs[..k]);
      var (p1, before) := OldBlocks(n, hash, files, p, bs[..k]);
      var y := OldBlockDealt(n, hash, files, p1, bs[k]);
      var (p2, last) := OldBlock(n, hash, files, p1, bs[k]);
      LoggedTwice(p, p1, p2, x, y);
      events := x + y;
      AccountStep(files, bs[..k], before, x, bs[k], last);
      if y == [] { NoMore(x); } else { assert y == [y[0]]; }
    }
  }

  /** The same role, blocks and number of blocks; a message that is not a user's is as it was. */
  ghost predicate SameShape(m: Message, o: Message)
  {
    && o.role == m.role && (o.blocks.Some? <==> m.blocks.Some?)
    && (m.blocks.Some? ==> |o.blocks.value| == |m.blocks.value|)
    && (m.role != User ==> o == m)
  }

  lemma OldMessageAccount(n: nat, hash: string -> int, files: map<string, string>, p: Progress, m: Message)
    returns (events: seq<Event>)
    ensures var (p', o) := OldMessage(n, hash, files, p, m);
            && Logged(p, p', events) && SameShape(m, o)
            && Account(files, UserBlocks(m), UserBlocks(o), events)
  {
    if m.role == User && m.blocks.Some? {
      events := OldBlocksAccount(n, hash, files, p, m.blocks.value);
    } else {
      events := [];
      NothingLogged(p);
    }
  }

  ghost predicate SameShapes(ms: seq<Message>, out: seq<Message>)
  {
    |out| == |ms| && forall i :: 0 <= i < |ms| ==> SameShape(ms[i], out[i])
  }

  /** The blocks of user messages, in order. */
  function Flat(ms: seq<Message>): seq<Block>
  {
    FlatMap(UserBlocks, ms)
  }

  lemma FlatStep(ms: seq<Message>, m: Message)
    ensures Flat(ms + [m]) == Flat(ms) + UserBlocks(m)
  {
    assert (ms + [m])[..|ms|] == ms;
  }

  lemma {:induction false} OldMessagesAccount(n: nat, hash: string -> int, files: map<string, string>,
                                              p: Progress, ms: seq<Message>)
    returns (events: seq<Event>)
    ensures var (p', out) := OldMessages(n, hash, files, p, ms);
            && Logged(p, p', events) && SameShapes(ms, out)
            && Account(files, Flat(ms), Flat(out), events)
  {
    if ms == [] {
      events := [];
      NothingLogged(p);
    } else {
      var k := |ms| - 1;
      assert ms == ms[..k] + [ms[k]];
      var x := OldMessagesAccount(n, hash, files, p, ms[..k]);
      var (p1, before) := OldMessages(n, hash, files, p, ms[..k]);
      var y := OldMessageAccount(n, hash, files, p1, ms[k]);
      var (p2, last) := OldMessage(n, hash, files, p1, ms[k]);
      LoggedTwice(p, p1, p2, x, y);
      events := x + y;
      FlatStep(ms[..k], ms[k]);
      FlatStep(before, last);
      AccountAppend(files, Flat(ms[..k]), Flat(before), x, UserBlocks(ms[k]), UserBlocks(last), y);
    }
  }

  /** What the second pass makes of a block: it stores every result of a file read. */
  function StoredEvent(files: map<string, string>): Block -> seq<Event>
  {
    (b: Block) => if Matched(files, b).Some? then [Stored(files[b.id], Matched(files, b).value)] else []
  }

  /** The second pass stores each result of a file read, in order, and counts nothing. */
  lemma {:induction false} RecentBlocksStore(n: nat, hash: string -> int, files: map<string, string>,
                                             p: Progress, bs: seq<Block>)
    ensures var p' := RecentBlocks(n, hash, files, p, bs);
            p'.log == p.log + FlatMap(StoredEvent(files), bs) && p'.stats == p.stats
  {
    if bs == [] {
      NoMore(p.log);
    } else {
      var k := |bs| - 1;
      RecentBlocksStore(n, hash, files, p, bs[..k]);
      Regroup(p.log, FlatMap(StoredEvent(files), bs[..k]), StoredEvent(files)(bs[k]));
      NoMore(p.log + FlatMap(StoredEvent(files), bs[..k]));
    }
  }

  /** The last two messages, and the files that they read. */
  function Recent(ms: seq<Message>): seq<Message>
  {
    if |ms| < 2 then ms else ms[|ms| - 2..]
  }

  function RecentReadsOf(ms: seq<Message>): map<string, string>
  {
    ToMap(FlatMap(RecentReadsIn, Recent(ms)))
  }

  /** What a request stores of its last two messages: nothing if its older ones read no file. */
  function StoredOf(ms: seq<Message>): seq<Event>
  {
    if ReadsOf(ms) == map[] then [] else FlatMap(StoredEvent(RecentReadsOf(ms)), Flat(Recent(ms)))
  }

  /** The files that the old assistant messages of a request read. */
  function ReadsOf(ms: seq<Message>): map<string, string>
  {
    if |ms| < 3 then map[] else ToMap(FlatMap(OldReadsIn, Older(ms)))
  }

  /** All but the last two messages. */
  function Older(ms: seq<Message>): seq<Message>
  {
    if |ms| < 2 then [] else ms[..|ms| - 2]
  }

  lemma {:induction false} NoReadsNoEvents(bs: seq<Block>)
    ensures Account(map[], bs, bs, [])
  {
    if bs != [] { NoReadsNoEvents(bs[..|bs| - 1]); }
  }

  /** One request keeps the number of messages, every role, the number, order and ids of blocks, and the
      last two messages entirely. Its events account for every result of a file read in the older user
      messages, one each and in order: what is marked was replaced by its marker, what is kept is as it
      was, and the statistics are their tally. Then every result of a file read in the last two messages is
      stored. */
  lemma ApplyOutcome(n: nat, hash: string -> int, p: Progress, ms: seq<Message>)
    returns (events: seq<Event>)
    ensures var (p', out) := Apply(n, hash, p, ms);
            && SameShapes(ms, out)
            && (forall i :: |ms| - 2 <= i < |ms| && 0 <= i ==> out[i] == ms[i])
            && Account(ReadsOf(ms), Flat(Older(ms)), Flat(Older(out)), events)
            && p'.log == p.log + events + StoredOf(ms)
            && p'.stats == Tally(events)
  {
    var (p', out) := Apply(n, hash, p, ms);
    var files := ReadsOf(ms);
    var p0 := p.(stats := Stats(0, 0, 0));
    if files == map[] {
      events := [];
      NoMore(p.log);
      NoReadsNoEvents(Flat(Older(ms)));
    } else {
      events := OldMessagesAccount(n, hash, files, p0, Older(ms));
      var (p1, older) := OldMessages(n, hash, files, p0, Older(ms));
      var last := ms[|ms| - 2..];
      RecentBlocksStore(n, hash, RecentReadsOf(ms), p1, Flat(last));
      LogOfBoth(p0, p1, p', events, StoredOf(ms));
      KeptLast(ms, older, out);
    }
  }

  lemma LogOfBoth(p: Progress, p1: Progress, p': Progress, events: seq<Event>, stored: seq<Event>)
    requires p.stats == Stats(0, 0, 0) && Logged(p, p1, events)
    requires p'.log == p1.log + stored && p'.stats == p1.stats
    ensures p'.log == p.log + events + stored && p'.stats == Tally(events)
  {
  }

  lemma KeptLast(ms: seq<Message>, older: seq<Message>, out: seq<Message>)
    requires |ms| >= 2 && SameShapes(Older(ms), older) && out == older + ms[|ms| - 2..]
    ensures SameShapes(ms, out) && Older(out) == older
    ensures forall i :: |ms| - 2 <= i < |ms| ==> out[i] == ms[i]
  {
    assert forall i :: 0 <= i < |older| ==> out[i] == older[i] && ms[i] == Older(ms)[i];
  }

  // ----- when a result is replaced -----

  function OpOf(e: Event): seq<Op>
  {
    match e
    case Kept(path, content) => [Insertion(path, content)]
    case Stored(path, content) => [Insertion(path, content)]
    case Marked(_, _, _) => []
  }

  function Ops(log: seq<Event>): seq<Op>
  {
    FlatMap(OpOf, log)
  }

  predicate Caches(e: Event, path: string)
  {
    !e.Marked? && e.path == path
  }

  /** Where in the log the file was last cached; -1 if nowhere. */
  function LastCached(log: seq<Event>, path: string): (i: int)
    ensures -1 <= i < |log|
    ensures i >= 0 ==> Caches(log[i], path)
    ensures forall k :: i < k < |log| ==> !Caches(log[k], path)
  {
    if log == [] then -1
    else if Caches(log[|log| - 1], path) then |log| - 1
    else LastCached(log[..|log| - 1], path)
  }

  lemma OpsStep(log: seq<Event>, e: Event)
    ensures Ops(log + [e]) == if e.Marked? then Ops(log) else Ops(log) + [Insertion(e.path, e.content)]
  {
    assert (log + [e])[..|log|] == log;
    assert Ops(log) + [] == Ops(log);
  }

  lemma RunStep(n: nat, hash: string -> int, h: seq<Op>, path: string, content: string)
    ensures Run(n, hash, h + [Insertion(path, content)]) == Put(Run(n, hash, h), n, hash, path, content)
  {
    assert (h + [Insertion(path, content)])[..|h|] == h;
  }

  lemma {:induction false} LastCachedIsLastInsert(log: seq<Event>, path: string)
    ensures Live(Ops(log), path) <==> LastCached(log, path) >= 0
    ensures Live(Ops(log), path) ==> LastContent(Ops(log), path) == log[LastCached(log, path)].content
  {
    if log != [] {
      var k := |log| - 1;
      LastCachedIsLastInsert(log[..k], path);
      assert log == log[..k] + [log[k]];
      OpsStep(log[..k], log[k]);
      if !log[k].Marked? {
        LastInsertStep(Ops(log[..k]), log[k].path, log[k].content, path);
      }
    }
  }

  /** `path` is among the last `n` distinct files cached, and its last cached content had the same hash. */
  ghost predicate Known(n: nat, hash: string -> int, ops: seq<Op>, path: string, content: string)
  {
    Live(ops, path) && |Newer(ops, path)| < Capacity(n) && hash(LastContent(ops, path)) == hash(content)
  }

  /** Event i did what the plain history of cached results before it says. */
  ghost predicate ExactAt(n: nat, hash: string -> int, log: seq<Event>, i: nat)
    requires i < |log|
  {
    var ops := Ops(log[..i]);
    match log[i]
    case Marked(path, content, len) => Known(n, hash, ops, path, content) && len == |LastContent(ops, path)|
    case Kept(path, content) => !Known(n, hash, ops, path, content)
    case Stored(_, _) => true
  }

  ghost predicate Exact(n: nat, hash: string -> int, log: seq<Event>)
  {
    forall i :: 0 <= i < |log| ==> ExactAt(n, hash, log, i)
  }

  ghost predicate Consistent(n: nat, hash: string -> int, p: Progress)
  {
    p.cache == Run(n, hash, Ops(p.log)) && Exact(n, hash, p.log)
  }

  lemma AppendExact(n: nat, hash: string -> int, log: seq<Event>, e: Event)
    requires Exact(n, hash, log) && ExactAt(n, hash, log + [e], |log|)
    ensures Exact(n, hash, log + [e])
  {
    var log' := log + [e];
    forall i | 0 <= i < |log'| ensures ExactAt(n, hash, log', i) {
      if i < |log| {
        assert ExactAt(n, hash, log, i);
        assert log'[..i] == log[..i];
      }
    }
  }

  lemma PutConsistent(n: nat, hash: string -> int, p: Progress, e: Event, stats: Stats)
    requires Consistent(n, hash, p) && !e.Marked?
    requires e.Kept? ==> !Check(p.cache, e.path, hash(e.content)).Unchanged?
    ensures Consistent(n, hash, Progress(Put(p.cache, n, hash, e.path, e.content), p.log + [e], stats))
  {
    CheckAnswersExactly(n, hash, Ops(p.log), e.path, e.content);
    assert (p.log + [e])[..|p.log|] == p.log;
    AppendExact(n, hash, p.log, e);
    OpsStep(p.log, e);
    RunStep(n, hash, Ops(p.log), e.path, e.content);
  }

  lemma MarkConsistent(n: nat, hash: string -> int, p: Progress, path: string, content: string, len: nat, stats: Stats)
    requires Consistent(n, hash, p) && Check(p.cache, path, hash(content)) == Unchanged(len)
    ensures Consistent(n, hash, Progress(p.cache, p.log + [Marked(path, content, len)], stats))
  {
    var e := Marked(path, content, len);
    CheckAnswersExactly(n, hash, Ops(p.log), path, content);
    assert (p.log + [e])[..|p.log|] == p.log;
    AppendExact(n, hash, p.log, e);
    OpsStep(p.log, e);
  }

  lemma OldBlockConsistent(n: nat, hash: string -> int, files: map<string, string>, p: Progress, b: Block)
    requires Consistent(n, hash, p)
    ensures Consistent(n, hash, OldBlock(n, hash, files, p, b).0)
  {
    var text := Matched(files, b);
    if text.Some? {
      var path, content := files[b.id], text.value;
      var p' := OldBlock(n, hash, files, p, b).0;
      match Check(p.cache, path, hash(content)) {
        case Unchanged(len) => MarkConsistent(n, hash, p, path, content, len, p'.stats);
        case Miss => PutConsistent(n, hash, p, Kept(path, content), p'.stats);
        case Changed => PutConsistent(n, hash, p, Kept(path, content), p'.stats);
      }
    }
  }

  lemma {:induction false} OldBlocksConsistent(n: nat, hash: string -> int, files: map<string, string>,
                                               p: Progress, bs: seq<Block>)
    requires Consistent(n, hash, p)
    ensures Consistent(n, hash, OldBlocks(n, hash, files, p, bs).0)
  {
    if bs != [] {
      OldBlocksConsistent(n, hash, files, p, bs[..|bs| - 1]);
      OldBlockConsistent(n, hash, files, OldBlocks(n, hash, files, p, bs[..|bs| - 1]).0, bs[|bs| - 1]);
    }
  }

  lemma {:induction false} OldMessagesConsistent(n: nat, hash: string -> int, files: map<string, string>,
                                                 p: Progress, ms: seq<Message>)
    requires Consistent(n, hash, p)
    ensures Consistent(n, hash, OldMessages(n, hash, files, p, ms).0)
  {
    if ms != [] {
      var k := |ms| - 1;
      OldMessagesConsistent(n, hash, files, p, ms[..k]);
      if ms[k].blocks.Some? {
        OldBlocksConsistent(n, hash, files, OldMessages(n, hash, files, p, ms[..k]).0, ms[k].blocks.value);
      }
    }
  }

  lemma {:induction false} RecentBlocksConsistent(n: nat, hash: string -> int, files: map<string, string>,
                                                  p: Progress, bs: seq<Block>)
    requires Consistent(n, hash, p)
    ensures Consistent(n, hash, RecentBlocks(n, hash, files, p, bs))
  {
    if bs != [] {
      var k := |bs| - 1;
      RecentBlocksConsistent(n, hash, files, p, bs[..k]);
      var p1 := RecentBlocks(n, hash, files, p, bs[..k]);
      var text := Matched(files, bs[k]);
      if text.Some? {
        PutConsistent(n, hash, p1, Stored(files[bs[k].id], text.value), p1.stats);
      }
    }
  }

  lemma ApplyConsistent(n: nat, hash: string -> int, p: Progress, ms: seq<Message>)
    requires Consistent(n, hash, p)
    ensures Consistent(n, hash, Apply(n, hash, p, ms).0)
  {
    var p0 := p.(stats := Stats(0, 0, 0));
    if |ms| >= 3 {
      var cutoff := |ms| - 2;
      var files := ReadsOf(ms);
      OldMessagesConsistent(n, hash, files, p0, Older(ms));
      var p1 := OldMessages(n, hash, files, p0, Older(ms)).0;
      RecentBlocksConsistent(n, hash, ToMap(FlatMap(RecentReadsIn, ms[cutoff..])), p1, FlatMap(UserBlocks, ms[cutoff..]));
    }
  }

  /** Any number of requests, one after another, on one cache. */
  function ApplyAll(n: nat, hash: string -> int, requests: seq<seq<Message>>): Progress
  {
    if requests == [] then Progress(EMPTY_CACHE, [], Stats(0, 0, 0))
    else Apply(n, hash, ApplyAll(n, hash, requests[..|requests| - 1]), requests[|requests| - 1]).0
  }

  lemma {:induction false} ApplyAllConsistent(n: nat, hash: string -> int, requests: seq<seq<Message>>)
    ensures Consistent(n, hash, ApplyAll(n, hash, requests))
  {
    if requests != [] {
      ApplyAllConsistent(n, hash, requests[..|requests| - 1]);
      ApplyConsistent(n, hash, ApplyAll(n, hash, requests[..|requests| - 1]), requests[|requests| - 1]);
    }
  }

  ghost predicate CollisionFree(hash: string -> int)
  {
    forall a, b :: hash(a) == hash(b) ==> a == b
  }

  /** Over every sequence of requests, a result that is looked at is replaced if and only if its file is
      among the last N distinct files cached and its last cached content had the same hash. */
  lemma ReplacedExactly(n: nat, hash: string -> int, requests: seq<seq<Message>>, i: nat)
    requires i < |ApplyAll(n, hash, requests).log| && !ApplyAll(n, hash, requests).log[i].Stored?
    ensures var log := ApplyAll(n, hash, requests).log;
            log[i].Marked? <==> Known(n, hash, Ops(log[..i]), log[i].path, log[i].content)
  {
    ApplyAllConsistent(n, hash, requests);
    assert ExactAt(n, hash, ApplyAll(n, hash, requests).log, i);
  }

  /** A marker, in any state reached. */
  lemma MarkerIsTruthful(n: nat, hash: string -> int, p: Progress, i: nat)
    requires CollisionFree(hash) && Consistent(n, hash, p)
    requires i < |p.log| && p.log[i].Marked?
    ensures var j := LastCached(p.log[..i], p.log[i].path);
            && 0 <= j < i && !p.log[j].Marked? && p.log[j].path == p.log[i].path
            && p.log[j].content == p.log[i].content
            && p.log[i].originalLen == |p.log[i].content|
  {
    assert ExactAt(n, hash, p.log, i);
    LastCachedIsLastInsert(p.log[..i], p.log[i].path);
  }

  /** Over every sequence of requests, "unchanged since last read" is true: a marker replaces content
      equal to what the latest cached result for that path carried, and states its true length. */
  lemma MarkersAreTruthful(n: nat, hash: string -> int, requests: seq<seq<Message>>, i: nat)
    requires CollisionFree(hash)
    requires i < |ApplyAll(n, hash, requests).log| && ApplyAll(n, hash, requests).log[i].Marked?
    ensures var log := ApplyAll(n, hash, requests).log;
            var j := LastCached(log[..i], log[i].path);
            && 0 <= j < i && !log[j].Marked? && log[j].path == log[i].path
            && log[j].content == log[i].content
            && log[i].originalLen == |log[i].content|
  {
    ApplyAllConsistent(n, hash, requests);
    MarkerIsTruthful(n, hash, ApplyAll(n, hash, requests), i);
  }
}
