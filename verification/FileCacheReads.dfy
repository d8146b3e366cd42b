/** Which results the file cache looks at, and what it leaves of them, in the messages' own fields
    (src/file_cache.rs:105-278). */
module FileCacheReads {
  import opened Wrappers
  import opened Lists
  import opened Text
  import opened TextLayout
  import opened FileCacheRequests
  import opened FileCacheTheorems

  // ----- which files are read -----

  function PathIn(b: Block, recent: bool): string
    requires b.ToolUse?
  {
    if recent then b.recentPath else b.oldPath
  }

  /** A tool use with this id that reads a file, as one of the two passes takes it. */
  function ReadWith(id: string, recent: bool): Block -> bool
  {
    (b: Block) => b.ToolUse? && b.id == id && id != "" && PathIn(b, recent) != ""
  }

  function BlocksOfAssistant(m: Message): seq<Block>
  {
    if m.role == Assistant && m.blocks.Some? then m.blocks.value else []
  }

  /** An id stands for a file exactly if some use reads with it, and then for the path of the last one. */
  ghost predicate FilesFrom(bs: seq<Block>, files: map<string, string>, recent: bool)
  {
    forall id :: FileFrom(bs, files, recent, id)
  }

  ghost predicate FileFrom(bs: seq<Block>, files: map<string, string>, recent: bool, id: string)
  {
    match LastThat(ReadWith(id, recent), bs)
    case None => id !in files
    case Some(b) => id in files && b.ToolUse? && files[id] == PathIn(b, recent)
  }

  function ReadsOfBlock(recent: bool): Block -> seq<(string, string)>
  {
    if recent then RecentReads else OldReads
  }

  lemma FileNext(bs: seq<Block>, b: Block, files: map<string, string>, recent: bool, id: string)
    requires FileFrom(bs, files, recent, id)
    ensures var found := ReadsOfBlock(recent)(b);
            FileFrom(bs + [b], if found == [] then files else files[found[0].0 := found[0].1], recent, id)
  {
    LastNext(ReadWith(id, recent), bs, b);
  }

  lemma {:induction false} BlocksGiveFiles(bs: seq<Block>, recent: bool)
    ensures FilesFrom(bs, ToMap(FlatMap(ReadsOfBlock(recent), bs)), recent)
  {
    if bs != [] {
      var k := |bs| - 1;
      var before := FlatMap(ReadsOfBlock(recent), bs[..k]);
      BlocksGiveFiles(bs[..k], recent);
      assert bs == bs[..k] + [bs[k]];
      PairsNext(before, ReadsOfBlock(recent)(bs[k]));
      forall id ensures FileFrom(bs, ToMap(FlatMap(ReadsOfBlock(recent), bs)), recent, id) {
        assert FileFrom(bs[..k], ToMap(before), recent, id);
        FileNext(bs[..k], bs[k], ToMap(before), recent, id);
      }
    }
  }

  lemma PairsNext(pairs: seq<(string, string)>, found: seq<(string, string)>)
    requires |found| <= 1
    ensures ToMap(pairs + found) == if found == [] then ToMap(pairs) else ToMap(pairs)[found[0].0 := found[0].1]
  {
    if found == [] {
      NoMore(pairs);
    } else {
      assert (pairs + found)[..|pairs|] == pairs;
    }
  }

  lemma {:induction false} MessagesGiveBlocks(ms: seq<Message>, recent: bool)
    ensures FlatMap(if recent then RecentReadsIn else OldReadsIn, ms) ==
            FlatMap(ReadsOfBlock(recent), FlatMap(BlocksOfAssistant, ms))
  {
    if ms != [] {
      var k := |ms| - 1;
      MessagesGiveBlocks(ms[..k], recent);
      FlatMapAppend(ReadsOfBlock(recent), FlatMap(BlocksOfAssistant, ms[..k]), BlocksOfAssistant(ms[k]));
    }
  }

  /** The files of each pass are those that the assistant messages it covers read: all but the last two, if there are
      at least 3, and the last two. */
  lemma FilesExactly(ms: seq<Message>)
    ensures |ms| < 3 ==> ReadsOf(ms) == map[]
    ensures |ms| >= 3 ==> FilesFrom(FlatMap(BlocksOfAssistant, ms[..|ms| - 2]), ReadsOf(ms), false)
    ensures |ms| >= 2 ==> FilesFrom(FlatMap(BlocksOfAssistant, ms[|ms| - 2..]), RecentReadsOf(ms), true)
  {
    if |ms| >= 3 { PassFiles(Older(ms), ReadsOf(ms), false); }
    if |ms| >= 2 { PassFiles(Recent(ms), RecentReadsOf(ms), true); }
  }

  lemma PassFiles(ms: seq<Message>, files: map<string, string>, recent: bool)
    requires files == ToMap(FlatMap(if recent then RecentReadsIn else OldReadsIn, ms))
    ensures FilesFrom(FlatMap(BlocksOfAssistant, ms), files, recent)
  {
    MessagesGiveBlocks(ms, recent);
    BlocksGiveFiles(FlatMap(BlocksOfAssistant, ms), recent);
  }

  // ----- which results are looked at -----

  predicate IsTextPart(p: Part)
  {
    p.isText && p.text.Some?
  }

  function PartTexts(parts: seq<Part>, at: seq<nat>): seq<string>
    requires forall j :: 0 <= j < |at| ==> at[j] < |parts|
  {
    seq(|at|, j requires 0 <= j < |at| => parts[at[j]].text.UnwrapOr(""))
  }

  /** The text of a result: the string, or its text parts with a line break between them. */
  ghost predicate Says(r: Result, text: string)
  {
    match r
    case ResultText(s) => text == s
    case ResultParts(parts) => exists at :: Places(IsTextPart, parts, at) && LaidOut(text, PartTexts(parts, at), "\n")
    case NoText => false
  }

  lemma TextOfSays(r: Result)
    requires !r.NoText?
    ensures TextOf(r).Some? && Says(r, TextOf(r).value)
  {
    if r.ResultParts? {
      var at := FlatMapPlaces(PartText, IsTextPart, r.parts);
      assert FlatMap(PartText, r.parts) == PartTexts(r.parts, at);
      JoinLaysOut(FlatMap(PartText, r.parts), "\n");
    }
  }

  /** A result of a file read is looked at exactly if it says 50 bytes or more. */
  lemma LookedAtExactly(files: map<string, string>, b: Block)
    ensures Matched(files, b).Some? ==>
              b.ToolResult? && b.id in files && Says(b.content, Matched(files, b).value) && |Matched(files, b).value| >= 50
    ensures Matched(files, b).None? ==>
              || !b.ToolResult? || b.id !in files || b.content.NoText?
              || exists text :: Says(b.content, text) && |text| < 50
  {
    if b.ToolResult? && !b.content.NoText? { TextOfSays(b.content); }
  }

  // ----- what is left of a replaced result -----

  function MarkerFor(bytes: nat): string
  {
    "[File unchanged since last read — " + Dec(bytes) + " bytes cached]"
  }

  /** A replaced result keeps its id and becomes the marker, as a string where it was a string and as one text part
      where it was parts; the marker's number is the length of what it replaces. */
  lemma ReplacedLeaves(n: nat, hash: string -> int, p: Progress, files: map<string, string>, b: Block)
    requires CollisionFree(hash) && Consistent(n, hash, p)
    ensures var o := OldBlock(n, hash, files, p, b).1;
            o == b || (b.ToolResult? && Matched(files, b).Some?
                       && var marker := MarkerFor(|Matched(files, b).value|);
                          o == b.(content := if b.content.ResultText? then ResultText(marker)
                                             else ResultParts([Part(true, Some(marker))])))
  {
    var o := OldBlock(n, hash, files, p, b).1;
    if o != b {
      OldBlockConsistent(n, hash, files, p, b);
      MarkerIsTruthful(n, hash, OldBlock(n, hash, files, p, b).0, |p.log|);
    }
  }

  /** The bytes counted as saved are those by which the result got shorter, the dash of the marker taking three. */
  lemma SavesDifference(content: string)
    ensures var marker := |MarkerFor(|content|)| + 2;
            if |content| > marker then Saved(content, |content|) + marker == |content| else Saved(content, |content|) == 0
  {
  }
}
