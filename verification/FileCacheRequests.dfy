/** Rewriting a request with the file cache (src/file_cache.rs:105-278): re-reads of unchanged files
    in old messages become markers, and every request feeds the cache.

    A block carries the outcome of the lookups made on it: whether each of the two passes takes it for
    a file read, and of which path ("" when not). Text is one byte per character. */
module FileCacheRequests {
  import opened Wrappers
  import opened Lists
  import opened Text
  import opened FileCaching

  datatype Role = User | Assistant | OtherRole

  datatype Part = Part(isText: bool, text: Option<string>)

  datatype Result = ResultText(s: string) | ResultParts(parts: seq<Part>) | NoText

  /** `id` is a tool use's id or a tool result's tool_use_id. */
  datatype Block =
    | ToolUse(id: string, oldPath: string, recentPath: string)
    | ToolResult(id: string, content: Result)
    | OtherBlock

  datatype Message = Message(role: Role, blocks: Option<seq<Block>>)

  datatype Stats = Stats(checked: nat, hits: nat, saved: nat)

  /** What became of one tool result that was looked at. */
  datatype Event =
    | Kept(path: string, content: string)                        // first read or changed: cached
    | Marked(path: string, content: string, originalLen: nat)    // unchanged: replaced by a marker
    | Stored(path: string, content: string)                      // recent message: cached only

  datatype Progress = Progress(cache: CacheState, log: seq<Event>, stats: Stats)

  // ----- text of a tool result -----

  function PartText(p: Part): seq<string>
  {
    if p.isText && p.text.Some? then [p.text.value] else []
  }

  function TextOf(r: Result): Option<string>
  {
    match r
    case ResultText(s) => Some(s)
    case ResultParts(parts) => Some(Join(FlatMap(PartText, parts), "\n"))
    case NoText => None
  }

  const MIN_SIZE: nat := 50

  function Marker(originalLen: nat): string
  {
    "[File unchanged since last read — " + Dec(originalLen) + " bytes cached]"
  }

  /** The dash in the marker's text takes three bytes. */
  function MarkerBytes(originalLen: nat): nat
  {
    |Marker(originalLen)| + 2
  }

  function Replace(r: Result, originalLen: nat): Result
  {
    match r
    case ResultText(_) => ResultText(Marker(originalLen))
    case ResultParts(_) => ResultParts([Part(true, Some(Marker(originalLen)))])
    case NoText => NoText
  }

  // ----- which tool uses are file reads -----

  function OldReads(b: Block): seq<(string, string)>
  {
    if b.ToolUse? && b.id != "" && b.oldPath != "" then [(b.id, b.oldPath)] else []
  }

  function RecentReads(b: Block): seq<(string, string)>
  {
    if b.ToolUse? && b.id != "" && b.recentPath != "" then [(b.id, b.recentPath)] else []
  }

  function BlocksIf(m: Message, role: Role): seq<Block>
  {
    if m.role == role then m.blocks.UnwrapOr([]) else []
  }

  function OldReadsIn(m: Message): seq<(string, string)>
  {
    FlatMap(OldReads, BlocksIf(m, Assistant))
  }

  function RecentReadsIn(m: Message): seq<(string, string)>
  {
    FlatMap(RecentReads, BlocksIf(m, Assistant))
  }

  /** The map built by inserting the pairs in order. */
  function ToMap(pairs: seq<(string, string)>): map<string, string>
  {
    if pairs == [] then map[]
    else ToMap(pairs[..|pairs| - 1])[pairs[|pairs| - 1].0 := pairs[|pairs| - 1].1]
  }

  // ----- one tool result of an old message -----

  function Matched(files: map<string, string>, b: Block): Option<string>
  {
    if b.ToolResult? && b.id in files && TextOf(b.content).Some? && |TextOf(b.content).value| >= MIN_SIZE
    then TextOf(b.content) else None
  }

  function Put(s: CacheState, n: nat, hash: string -> int, path: string, content: string): CacheState
  {
    Insert(s, n, path, CachedFile(hash(content), |content|))
  }

  function Saved(content: string, originalLen: nat): nat
  {
    if |content| >= MarkerBytes(originalLen) then |content| - MarkerBytes(originalLen) else 0
  }

  function OldBlock(n: nat, hash: string -> int, files: map<string, string>, p: Progress, b: Block): (Progress, Block)
  {
    var text := Matched(files, b);
    if text.None? then (p, b)
    else
      var (path, content) := (files[b.id], text.value);
      match Check(p.cache, path, hash(content))
      case Unchanged(len) =>
        (Progress(p.cache, p.log + [Marked(path, content, len)],
                  Stats(p.stats.checked + 1, p.stats.hits + 1, p.stats.saved + Saved(content, len))),
         b.(content := Replace(b.content, len)))
      case _ =>
        (Progress(Put(p.cache, n, hash, path, content), p.log + [Kept(path, content)],
                  p.stats.(checked := p.stats.checked + 1)),
         b)
  }

  function OldBlocks(n: nat, hash: string -> int, files: map<string, string>, p: Progress, bs: seq<Block>)
    : (r: (Progress, seq<Block>))
    ensures |r.1| == |bs|
  {
    if bs == [] then (p, [])
    else
      var (p1, before) := OldBlocks(n, hash, files, p, bs[..|bs| - 1]);
      var (p2, last) := OldBlock(n, hash, files, p1, bs[|bs| - 1]);
      (p2, before + [last])
  }

  function OldMessage(n: nat, hash: string -> int, files: map<string, string>, p: Progress,
                      m: Message): (Progress, Message)
  {
    if m.role != User || m.blocks.None? then (p, m)
    else
      var (p', bs) := OldBlocks(n, hash, files, p, m.blocks.value);
      (p', m.(blocks := Some(bs)))
  }

  function OldMessages(n: nat, hash: string -> int, files: map<string, string>, p: Progress, ms: seq<Message>)
    : (r: (Progress, seq<Message>))
    ensures |r.1| == |ms|
  {
    if ms == [] then (p, [])
    else
      var (p1, before) := OldMessages(n, hash, files, p, ms[..|ms| - 1]);
      var (p2, last) := OldMessage(n, hash, files, p1, ms[|ms| - 1]);
      (p2, before + [last])
  }

  // ----- the recent messages only feed the cache -----

  function RecentBlock(n: nat, hash: string -> int, files: map<string, string>, p: Progress, b: Block): Progress
  {
    var text := Matched(files, b);
    if text.None? then p
    else
      Progress(Put(p.cache, n, hash, files[b.id], text.value), p.log + [Stored(files[b.id], text.value)], p.stats)
  }

  function RecentBlocks(n: nat, hash: string -> int, files: map<string, string>, p: Progress, bs: seq<Block>): Progress
  {
    if bs == [] then p
    else RecentBlock(n, hash, files, RecentBlocks(n, hash, files, p, bs[..|bs| - 1]), bs[|bs| - 1])
  }

  function UserBlocks(m: Message): seq<Block>
  {
    BlocksIf(m, User)
  }

  // ----- a whole request -----

  /** The cache and log outlive the request; the statistics start afresh. */
  function Apply(n: nat, hash: string -> int, p: Progress, ms: seq<Message>): (r: (Progress, seq<Message>))
    ensures |r.1| == |ms|
  {
    var p0 := p.(stats := Stats(0, 0, 0));
    if |ms| < 3 then (p0, ms)
    else
      var cutoff := |ms| - 2;
      var files := ToMap(FlatMap(OldReadsIn, ms[..cutoff]));
      if files == map[] then (p0, ms)
      else
        var (p1, older) := OldMessages(n, hash, files, p0, ms[..cutoff]);
        var recent := ToMap(FlatMap(RecentReadsIn, ms[cutoff..]));
        (RecentBlocks(n, hash, recent, p1, FlatMap(UserBlocks, ms[cutoff..])), older + ms[cutoff..])
  }

  // ----- the rewrite as the code runs it -----

  method AddReads(f: Block -> seq<(string, string)>, bs: seq<Block>, ghost pairs: seq<(string, string)>,
                  start: map<string, string>)
    returns (files: map<string, string>)
    requires forall b :: |f(b)| <= 1
    requires start == ToMap(pairs)
    ensures files == ToMap(pairs + FlatMap(f, bs))
  {
    files := start;
    ghost var all := pairs;
    assert pairs + [] == pairs;
    for k := 0 to |bs|
      invariant all == pairs + FlatMap(f, bs[..k]) && files == ToMap(all)
    {
      assert bs[..k + 1][..k] == bs[..k];
      var found := f(bs[k]);
      if found != [] {
        files := files[found[0].0 := found[0].1];
        assert (all + found)[..|all|] == all;
      } else {
        assert all + found == all;
      }
      Regroup(pairs, FlatMap(f, bs[..k]), found);
      all := all + found;
    }
    assert bs[..|bs|] == bs;
  }

  /** The file map of one pass over the assistant messages. */
  method CollectReads(ms: seq<Message>, recent: bool) returns (files: map<string, string>)
    ensures files == ToMap(FlatMap(if recent then RecentReadsIn else OldReadsIn, ms))
  {
    var f := if recent then RecentReadsIn else OldReadsIn;
    var g := if recent then RecentReads else OldReads;
    files := map[];
    for i := 0 to |ms|
      invariant files == ToMap(FlatMap(f, ms[..i]))
    {
      assert ms[..i + 1][..i] == ms[..i];
      files := AddReads(g, BlocksIf(ms[i], Assistant), FlatMap(f, ms[..i]), files);
    }
    assert ms[..|ms|] == ms;
  }

  method ProcessOldBlock(cache: FileCache, files: map<string, string>, b: Block, ghost p: Progress, stats: Stats)
    returns (b': Block, stats': Stats, ghost p': Progress)
    requires p == Progress(cache.State(), p.log, stats)
    modifies cache
    ensures (p', b') == OldBlock(cache.maxEntries, cache.computeHash, files, p, b)
    ensures p' == Progress(cache.State(), p'.log, stats')
  {
    b', stats', p' := b, stats, p;
    if !b.ToolResult? || b.id !in files || b.content.NoText? { return; }
    var path, content := files[b.id], TextOf(b.content).value;
    if |content| < MIN_SIZE { return; }
    stats' := stats'.(checked := stats'.checked + 1);
    var r := cache.CheckFile(path, content);
    match r {
      case Miss =>
        cache.InsertFile(path, content);
        p' := Progress(cache.State(), p.log + [Kept(path, content)], stats');
      case Changed =>
        cache.InsertFile(path, content);
        p' := Progress(cache.State(), p.log + [Kept(path, content)], stats');
      case Unchanged(len) =>
        stats' := stats'.(hits := stats'.hits + 1, saved := stats'.saved + Saved(content, len));
        b' := b.(content := Replace(b.content, len));
        p' := Progress(cache.State(), p.log + [Marked(path, content, len)], stats');
    }
  }

  method ProcessOldBlocks(cache: FileCache, files: map<string, string>, bs: seq<Block>, ghost p: Progress, stats: Stats)
    returns (bs': seq<Block>, stats': Stats, ghost p': Progress)
    requires p == Progress(cache.State(), p.log, stats)
    modifies cache
    ensures (p', bs') == OldBlocks(cache.maxEntries, cache.computeHash, files, p, bs)
    ensures p' == Progress(cache.State(), p'.log, stats')
  {
    bs', stats', p' := [], stats, p;
    for k := 0 to |bs|
      invariant (p', bs') == OldBlocks(cache.maxEntries, cache.computeHash, files, p, bs[..k])
      invariant p' == Progress(cache.State(), p'.log, stats')
    {
      assert bs[..k + 1][..k] == bs[..k];
      var b;
      b, stats', p' := ProcessOldBlock(cache, files, bs[k], p', stats');
      bs' := bs' + [b];
    }
    assert bs[..|bs|] == bs;
  }

  method ProcessOldMessages(cache: FileCache, files: map<string, string>, ms: seq<Message>, ghost p: Progress,
                            stats: Stats)
    returns (ms': seq<Message>, stats': Stats, ghost p': Progress)
    requires p == Progress(cache.State(), p.log, stats)
    modifies cache
    ensures (p', ms') == OldMessages(cache.maxEntries, cache.computeHash, files, p, ms)
    ensures p' == Progress(cache.State(), p'.log, stats')
  {
    ms', stats', p' := [], stats, p;
    for i := 0 to |ms|
      invariant (p', ms') == OldMessages(cache.maxEntries, cache.computeHash, files, p, ms[..i])
      invariant p' == Progress(cache.State(), p'.log, stats')
    {
      assert ms[..i + 1][..i] == ms[..i];
      if ms[i].role == User && ms[i].blocks.Some? {
        var bs;
        bs, stats', p' := ProcessOldBlocks(cache, files, ms[i].blocks.value, p', stats');
        ms' := ms' + [ms[i].(blocks := Some(bs))];
      } else {
        ms' := ms' + [ms[i]];
      }
    }
    assert ms[..|ms|] == ms;
  }

  method ProcessRecent(cache: FileCache, files: map<string, string>, bs: seq<Block>, ghost p: Progress)
    returns (ghost p': Progress)
    requires p.cache == cache.State()
    modifies cache
    ensures p' == RecentBlocks(cache.maxEntries, cache.computeHash, files, p, bs)
    ensures p'.cache == cache.State()
  {
    p' := p;
    for k := 0 to |bs|
      invariant p' == RecentBlocks(cache.maxEntries, cache.computeHash, files, p, bs[..k])
      invariant p'.cache == cache.State()
    {
      assert bs[..k + 1][..k] == bs[..k];
      if bs[k].ToolResult? && bs[k].id in files && !bs[k].content.NoText? {
        var content := TextOf(bs[k].content).value;
        if |content| >= MIN_SIZE {
          cache.InsertFile(files[bs[k].id], content);
        }
      }
      p' := RecentBlock(cache.maxEntries, cache.computeHash, files, p', bs[k]);
    }
    assert bs[..|bs|] == bs;
  }

  method ApplyFileCache(cache: FileCache, ms: seq<Message>, ghost p: Progress)
    returns (ms': seq<Message>, stats: Stats, ghost p': Progress)
    requires p.cache == cache.State()
    modifies cache
    ensures (p', ms') == Apply(cache.maxEntries, cache.computeHash, p, ms)
    ensures p'.cache == cache.State() && p'.stats == stats
  {
    ms', stats, p' := ms, Stats(0, 0, 0), p.(stats := Stats(0, 0, 0));
    if |ms| < 3 { return; }
    var cutoff := |ms| - 2;
    var files := CollectReads(ms[..cutoff], false);
    if files == map[] { return; }
    ms', stats, p' := ProcessOldMessages(cache, files, ms[..cutoff], p', stats);
    var recent := CollectReads(ms[cutoff..], true);
    ghost var stored := ProcessRecent(cache, recent, FlatMap(UserBlocks, ms[cutoff..]), p');
    RecentKeepsStats(cache.maxEntries, cache.computeHash, recent, p', FlatMap(UserBlocks, ms[cutoff..]));
    p' := stored;
    ms' := ms' + ms[cutoff..];
  }

  lemma {:induction false} RecentKeepsStats(n: nat, hash: string -> int, files: map<string, string>,
                                            p: Progress, bs: seq<Block>)
    ensures RecentBlocks(n, hash, files, p, bs).stats == p.stats
  {
    if bs != [] { RecentKeepsStats(n, hash, files, p, bs[..|bs| - 1]); }
  }
}
