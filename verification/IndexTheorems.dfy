/** Incremental indexing equals a full rebuild, over every sequence of snapshots of the file tree
    (src/hashes.rs:87-212, src/symbols.rs:699-775, src/main.rs:1132-1169). */
module IndexTheorems {
  import opened Wrappers
  import opened Indexing

  // ----- what the tables say about one file -----

  datatype Rows = Rows(symbols: map<SymbolKey, Symbol>, refs: set<RefRow>)

  const NO_ROWS := Rows(map[], {})

  function SymbolsOf(table: map<SymbolKey, Symbol>, file: string): map<SymbolKey, Symbol>
  {
    map k | k in table && k.file == file :: table[k]
  }

  function RefsOf(table: set<RefRow>, file: string): set<RefRow>
  {
    set r | r in table && r.file == file
  }

  function RowsOf(ix: Index, file: string): Rows
  {
    Rows(SymbolsOf(ix.symbols, file), RefsOf(ix.refs, file))
  }

  /** The rows a file gets in an empty database. */
  function FreshRows(file: string, fs: FileSymbols): Rows
  {
    Rows(InsertSymbols(map[], file, fs.symbols), InsertRefs({}, file, fs.refs))
  }

  function Fresh(t: Tools, f: WalkedFile): Rows
  {
    FreshRows(f.path, t.extract(f.content, t.language(f.path)))
  }

  lemma {:induction false} InsertSymbolsRows(table: map<SymbolKey, Symbol>, file: string, symbols: seq<Symbol>, f: string)
    ensures SymbolsOf(InsertSymbols(table, file, symbols), f) ==
            if f == file then InsertSymbols(SymbolsOf(table, f), file, symbols) else SymbolsOf(table, f)
  {
    if symbols != [] {
      var k := |symbols| - 1;
      InsertSymbolsRows(table, file, symbols[..k], f);
    }
  }

  lemma {:induction false} InsertRefsRows(table: set<RefRow>, file: string, refs: seq<Ref>, f: string)
    ensures RefsOf(InsertRefs(table, file, refs), f) ==
            if f == file then InsertRefs(RefsOf(table, f), file, refs) else RefsOf(table, f)
  {
    if refs != [] {
      InsertRefsRows(table, file, refs[..|refs| - 1], f);
    }
  }

  lemma DeleteFileRows(ix: Index, file: string, f: string)
    ensures RowsOf(DeleteFile(ix, file), f) == if f == file then NO_ROWS else RowsOf(ix, f)
  {
  }

  lemma StoreFileRows(ix: Index, file: string, fs: FileSymbols, f: string)
    ensures RowsOf(StoreFile(ix, file, fs), f) == if f == file then FreshRows(file, fs) else RowsOf(ix, f)
  {
    DeleteFileRows(ix, file, f);
    InsertSymbolsRows(DeleteFile(ix, file).symbols, file, fs.symbols, f);
    InsertRefsRows(DeleteFile(ix, file).refs, file, fs.refs, f);
  }

  // ----- what changed -----

  ghost predicate Distinct(walk: seq<WalkedFile>)
  {
    forall i, j :: 0 <= i < j < |walk| ==> walk[i].path != walk[j].path
  }

  ghost predicate Readable(t: Tools, walk: seq<WalkedFile>)
  {
    forall i :: 0 <= i < |walk| ==> t.utf8(walk[i].content)
  }

  lemma {:induction false} ChangedMember(t: Tools, stored: map<string, string>, walk: seq<WalkedFile>, h: FileHash)
    ensures h in Changed(t, stored, walk) <==>
            exists i :: 0 <= i < |walk| && !Same(t, stored, walk[i]) && h == ToHash(t, walk[i])
  {
    if walk != [] {
      var k := |walk| - 1;
      ChangedMember(t, stored, walk[..k], h);
      assert forall i :: 0 <= i < k ==> walk[..k][i] == walk[i];
    }
  }

  function TextOf(t: Tools, f: WalkedFile): Option<string>
  {
    if t.utf8(f.content) then Some(f.content) else None
  }

  lemma {:induction false} ReadTextAt(t: Tools, walk: seq<WalkedFile>, i: nat)
    requires Distinct(walk) && i < |walk|
    ensures ReadText(t, walk, walk[i].path) == TextOf(t, walk[i])
  {
    var k := |walk| - 1;
    if i < k { ReadTextAt(t, walk[..k], i); }
  }

  lemma {:induction false} UpsertValue(hashes: map<string, string>, changed: seq<FileHash>, path: string, sha: string)
    requires forall h :: h in changed && h.path == path ==> h.sha256 == sha
    ensures path in Upsert(hashes, changed) <==> path in hashes || exists h :: h in changed && h.path == path
    ensures (exists h :: h in changed && h.path == path) ==> Upsert(hashes, changed)[path] == sha
    ensures !(exists h :: h in changed && h.path == path) && path in hashes ==> Upsert(hashes, changed)[path] == hashes[path]
  {
    if changed != [] {
      var k := |changed| - 1;
      assert changed == changed[..k] + [changed[k]];
      UpsertValue(hashes, changed[..k], path, sha);
    }
  }

  ghost predicate Among(changed: seq<FileHash>, path: string)
  {
    exists h :: h in changed && h.path == path
  }

  /** Storing changed files replaces exactly the rows of the readable ones. */
  lemma {:induction false} StoreChangedRows(t: Tools, walk: seq<WalkedFile>, ix: Index, changed: seq<FileHash>,
                                            f: string, text: Option<string>)
    requires forall h :: h in changed && h.path == f ==> h.language == t.language(f)
    requires Among(changed, f) ==> ReadText(t, walk, f) == text
    ensures RowsOf(StoreChanged(t, walk, ix, changed), f) ==
            if Among(changed, f) && text.Some? then FreshRows(f, t.extract(text.value, t.language(f))) else RowsOf(ix, f)
  {
    if changed != [] {
      var k := |changed| - 1;
      var last := changed[k];
      assert changed == changed[..k] + [last];
      assert Among(changed, f) <==> Among(changed[..k], f) || last.path == f;
      StoreChangedRows(t, walk, ix, changed[..k], f, text);
      var read := ReadText(t, walk, last.path);
      if read.Some? {
        StoreFileRows(StoreChanged(t, walk, ix, changed[..k]), last.path, t.extract(read.value, last.language), f);
      }
    }
  }

  // ----- the invariant -----

  ghost predicate CollisionFree(t: Tools)
  {
    forall a, b :: t.hash(a) == t.hash(b) ==> a == b
  }

  /** The index says what the snapshot says: the hash of every file, the fresh rows of every readable
      file, and nothing about other files. */
  ghost predicate UpToDate(t: Tools, ix: Index, walk: seq<WalkedFile>)
  {
    && ix.hashes.Keys == Paths(walk)
    && (forall i :: 0 <= i < |walk| ==> walk[i].path in ix.hashes && ix.hashes[walk[i].path] == t.hash(walk[i].content))
    && (forall i :: 0 <= i < |walk| && t.utf8(walk[i].content) ==> RowsOf(ix, walk[i].path) == Fresh(t, walk[i]))
    && (forall f :: f !in Paths(walk) ==> RowsOf(ix, f) == NO_ROWS)
  }

  ghost predicate InChanged(t: Tools, stored: map<string, string>, walk: seq<WalkedFile>, path: string)
  {
    Among(Changed(t, stored, walk), path)
  }

  lemma ChangedAt(t: Tools, stored: map<string, string>, walk: seq<WalkedFile>, i: nat)
    requires Distinct(walk) && i < |walk|
    ensures InChanged(t, stored, walk, walk[i].path) <==> !Same(t, stored, walk[i])
    ensures forall h :: h in Changed(t, stored, walk) && h.path == walk[i].path ==> h == ToHash(t, walk[i])
  {
    ChangedMember(t, stored, walk, ToHash(t, walk[i]));
    forall h | h in Changed(t, stored, walk) && h.path == walk[i].path
      ensures h == ToHash(t, walk[i]) && !Same(t, stored, walk[i])
    {
      ChangedMember(t, stored, walk, h);
      var j :| 0 <= j < |walk| && !Same(t, stored, walk[j]) && h == ToHash(t, walk[j]);
      assert walk[j].path == walk[i].path;
      assert j == i;
    }
  }

  lemma ChangedNotWalked(t: Tools, stored: map<string, string>, walk: seq<WalkedFile>, path: string)
    requires path !in Paths(walk)
    ensures !InChanged(t, stored, walk, path)
  {
    forall h | h in Changed(t, stored, walk) ensures h.path != path {
      ChangedMember(t, stored, walk, h);
      var j :| 0 <= j < |walk| && !Same(t, stored, walk[j]) && h == ToHash(t, walk[j]);
      assert walk[j].path in Paths(walk);
    }
  }

  lemma ScanHash(t: Tools, ix: Index, walk: seq<WalkedFile>, i: nat)
    requires Distinct(walk) && i < |walk|
    ensures var hashes := Upsert(ix.hashes - (ix.hashes.Keys - Paths(walk)), Changed(t, ix.hashes, walk));
            walk[i].path in hashes && hashes[walk[i].path] == t.hash(walk[i].content)
  {
    ChangedAt(t, ix.hashes, walk, i);
    assert walk[i].path in Paths(walk);
    var kept := ix.hashes - (ix.hashes.Keys - Paths(walk));
    UpsertValue(kept, Changed(t, ix.hashes, walk), walk[i].path, t.hash(walk[i].content));
  }

  lemma ScanHashOther(t: Tools, ix: Index, walk: seq<WalkedFile>, path: string)
    requires path !in Paths(walk)
    ensures path !in Upsert(ix.hashes - (ix.hashes.Keys - Paths(walk)), Changed(t, ix.hashes, walk))
  {
    ChangedNotWalked(t, ix.hashes, walk, path);
    UpsertValue(ix.hashes - (ix.hashes.Keys - Paths(walk)), Changed(t, ix.hashes, walk), path, "");
  }

  /** What a scan leaves in the tables about a file it visits. */
  lemma ScanRowsOf(t: Tools, ix: Index, walk: seq<WalkedFile>, i: nat)
    requires Distinct(walk) && i < |walk|
    ensures RowsOf(ScanState(t, ix, walk), walk[i].path) ==
            if !Same(t, ix.hashes, walk[i]) && t.utf8(walk[i].content) then Fresh(t, walk[i]) else RowsOf(ix, walk[i].path)
  {
    var d := Delta(t, ix.hashes, walk);
    var stored := ix.(hashes := Upsert(ix.hashes - d.deleted, d.changed));
    var f := walk[i];
    assert f.path in Paths(walk);
    ChangedAt(t, ix.hashes, walk, i);
    ReadTextAt(t, walk, i);
    StoreChangedRows(t, walk, stored, d.changed, f.path, TextOf(t, f));
    assert RowsOf(stored, f.path) == RowsOf(ix, f.path);
  }

  lemma ScanRows(t: Tools, ix: Index, prev: seq<WalkedFile>, walk: seq<WalkedFile>, i: nat)
    requires CollisionFree(t) && UpToDate(t, ix, prev)
    requires Distinct(walk) && i < |walk| && t.utf8(walk[i].content)
    ensures RowsOf(ScanState(t, ix, walk), walk[i].path) == Fresh(t, walk[i])
  {
    ScanRowsOf(t, ix, walk, i);
    if Same(t, ix.hashes, walk[i]) {
      var j :| 0 <= j < |prev| && prev[j].path == walk[i].path;
      assert prev[j].content == walk[i].content;
    }
  }

  lemma ScanRowsOther(t: Tools, ix: Index, prev: seq<WalkedFile>, walk: seq<WalkedFile>, path: string)
    requires UpToDate(t, ix, prev) && path !in Paths(walk)
    ensures RowsOf(ScanState(t, ix, walk), path) == NO_ROWS
  {
    var d := Delta(t, ix.hashes, walk);
    var stored := ix.(hashes := Upsert(ix.hashes - d.deleted, d.changed));
    ChangedNotWalked(t, ix.hashes, walk, path);
    StoreChangedRows(t, walk, stored, d.changed, path, None);
    assert RowsOf(stored, path) == RowsOf(ix, path);
  }

  lemma {:induction false} ScanHashes(t: Tools, walk: seq<WalkedFile>, ix: Index, changed: seq<FileHash>)
    ensures StoreChanged(t, walk, ix, changed).hashes == ix.hashes
  {
    if changed != [] { ScanHashes(t, walk, ix, changed[..|changed| - 1]); }
  }

  lemma ScanFile(t: Tools, ix: Index, prev: seq<WalkedFile>, walk: seq<WalkedFile>, i: nat)
    requires CollisionFree(t) && UpToDate(t, ix, prev)
    requires Distinct(walk) && i < |walk|
    ensures var after := ScanState(t, ix, walk);
            && walk[i].path in after.hashes && after.hashes[walk[i].path] == t.hash(walk[i].content)
            && (t.utf8(walk[i].content) ==> RowsOf(after, walk[i].path) == Fresh(t, walk[i]))
  {
    var d := Delta(t, ix.hashes, walk);
    ScanHashes(t, walk, ix.(hashes := Upsert(ix.hashes - d.deleted, d.changed)), d.changed);
    ScanHash(t, ix, walk, i);
    if t.utf8(walk[i].content) { ScanRows(t, ix, prev, walk, i); }
  }

  lemma ScanOther(t: Tools, ix: Index, prev: seq<WalkedFile>, walk: seq<WalkedFile>, path: string)
    requires UpToDate(t, ix, prev) && path !in Paths(walk)
    ensures path !in ScanState(t, ix, walk).hashes && RowsOf(ScanState(t, ix, walk), path) == NO_ROWS
  {
    var d := Delta(t, ix.hashes, walk);
    ScanHashes(t, walk, ix.(hashes := Upsert(ix.hashes - d.deleted, d.changed)), d.changed);
    ScanHashOther(t, ix, walk, path);
    ScanRowsOther(t, ix, prev, walk, path);
  }

  /** A scan of any snapshot brings an index that was up to date up to date again. */
  lemma ScanUpdates(t: Tools, ix: Index, prev: seq<WalkedFile>, walk: seq<WalkedFile>)
    requires CollisionFree(t) && UpToDate(t, ix, prev) && Distinct(walk)
    ensures UpToDate(t, ScanState(t, ix, walk), walk)
  {
    var after := ScanState(t, ix, walk);
    forall i | 0 <= i < |walk|
      ensures walk[i].path in after.hashes && after.hashes[walk[i].path] == t.hash(walk[i].content)
      ensures t.utf8(walk[i].content) ==> RowsOf(after, walk[i].path) == Fresh(t, walk[i])
    {
      ScanFile(t, ix, prev, walk, i);
    }
    forall path | path !in Paths(walk) ensures path !in after.hashes && RowsOf(after, path) == NO_ROWS {
      ScanOther(t, ix, prev, walk, path);
    }
  }

  // ----- every sequence of scans -----

  function ScanAll(t: Tools, snapshots: seq<seq<WalkedFile>>): Index
  {
    if snapshots == [] then EMPTY_INDEX
    else ScanState(t, ScanAll(t, snapshots[..|snapshots| - 1]), snapshots[|snapshots| - 1])
  }

  ghost predicate Sound(snapshots: seq<seq<WalkedFile>>)
  {
    forall i :: 0 <= i < |snapshots| ==> Distinct(snapshots[i])
  }

  function Latest(snapshots: seq<seq<WalkedFile>>): seq<WalkedFile>
  {
    if snapshots == [] then [] else snapshots[|snapshots| - 1]
  }

  lemma {:induction false} ScanAllUpToDate(t: Tools, snapshots: seq<seq<WalkedFile>>)
    requires CollisionFree(t) && Sound(snapshots)
    ensures UpToDate(t, ScanAll(t, snapshots), Latest(snapshots))
  {
    if snapshots != [] {
      var k := |snapshots| - 1;
      ScanAllUpToDate(t, snapshots[..k]);
      ScanUpdates(t, ScanAll(t, snapshots[..k]), Latest(snapshots[..k]), snapshots[k]);
    }
  }

  /** Two indexes that say the same about every file are the same. */
  lemma SameRowsSameIndex(a: Index, b: Index)
    requires a.hashes == b.hashes && forall f :: RowsOf(a, f) == RowsOf(b, f)
    ensures a == b
  {
    forall k | k in a.symbols || k in b.symbols ensures k in a.symbols && k in b.symbols && a.symbols[k] == b.symbols[k] {
      assert RowsOf(a, k.file) == RowsOf(b, k.file);
      assert k in SymbolsOf(a.symbols, k.file) || k in SymbolsOf(b.symbols, k.file);
    }
    forall r ensures r in a.refs <==> r in b.refs {
      assert RowsOf(a, r.file) == RowsOf(b, r.file);
      assert r in RefsOf(a.refs, r.file) <==> r in RefsOf(b.refs, r.file);
    }
  }

  lemma UpToDateUnique(t: Tools, a: Index, b: Index, walk: seq<WalkedFile>)
    requires UpToDate(t, a, walk) && UpToDate(t, b, walk)
    requires forall i :: 0 <= i < |walk| && !t.utf8(walk[i].content) ==> RowsOf(a, walk[i].path) == RowsOf(b, walk[i].path)
    ensures a == b
  {
    forall f ensures RowsOf(a, f) == RowsOf(b, f) {
      if f in Paths(walk) {
        var i :| 0 <= i < |walk| && walk[i].path == f;
        assert RowsOf(a, walk[i].path) == RowsOf(b, walk[i].path);
      }
    }
    SameRowsSameIndex(a, b);
  }

  /** No file that cannot be read has rows left from when it could. */
  ghost predicate NothingStale(t: Tools, ix: Index, walk: seq<WalkedFile>)
  {
    forall i :: 0 <= i < |walk| && !t.utf8(walk[i].content) ==> RowsOf(ix, walk[i].path) == NO_ROWS
  }

  /** A file that stays but stops being UTF-8 gets its new hash while the rows of its old text stay. */
  lemma UnreadableKeepsStaleRows(t: Tools, ix: Index, walk: seq<WalkedFile>, i: nat)
    requires Distinct(walk) && i < |walk| && !t.utf8(walk[i].content)
    ensures var after := ScanState(t, ix, walk);
            && walk[i].path in after.hashes && after.hashes[walk[i].path] == t.hash(walk[i].content)
            && RowsOf(after, walk[i].path) == RowsOf(ix, walk[i].path)
  {
    var d := Delta(t, ix.hashes, walk);
    ScanHashes(t, walk, ix.(hashes := Upsert(ix.hashes - d.deleted, d.changed)), d.changed);
    ScanHash(t, ix, walk, i);
    ScanRowsOf(t, ix, walk, i);
  }

  /** When one more scan gives what indexing the snapshot from nothing gives: exactly when no
      unreadable file of the snapshot has rows in the index. */
  lemma ScanIsRebuildExactly(t: Tools, ix: Index, prev: seq<WalkedFile>, walk: seq<WalkedFile>)
    requires CollisionFree(t) && UpToDate(t, ix, prev) && Distinct(walk)
    ensures ScanState(t, ix, walk) == ScanState(t, EMPTY_INDEX, walk) <==> NothingStale(t, ix, walk)
  {
    var (a, b) := (ScanState(t, ix, walk), ScanState(t, EMPTY_INDEX, walk));
    forall i | 0 <= i < |walk| && !t.utf8(walk[i].content)
      ensures RowsOf(a, walk[i].path) == RowsOf(ix, walk[i].path) && RowsOf(b, walk[i].path) == NO_ROWS
    {
      UnreadableKeepsStaleRows(t, ix, walk, i);
      UnreadableKeepsStaleRows(t, EMPTY_INDEX, walk, i);
      EmptyHasNoRows(walk[i].path);
    }
    if NothingStale(t, ix, walk) {
      ScanUpdates(t, ix, prev, walk);
      ScanUpdates(t, EMPTY_INDEX, [], walk);
      UpToDateUnique(t, a, b, walk);
    }
  }

  lemma EmptyHasNoRows(f: string)
    ensures RowsOf(EMPTY_INDEX, f) == NO_ROWS
  {
  }

  /** After every sequence of scans the index says what the last snapshot says; and it is the index
      that a single scan of that snapshot builds from nothing exactly when the last scan found no
      unreadable file with rows. */
  lemma IncrementalIsRebuildExactly(t: Tools, snapshots: seq<seq<WalkedFile>>)
    requires CollisionFree(t) && Sound(snapshots) && snapshots != []
    ensures UpToDate(t, ScanAll(t, snapshots), Latest(snapshots))
    ensures ScanAll(t, snapshots) == ScanState(t, EMPTY_INDEX, Latest(snapshots))
       <==> NothingStale(t, ScanAll(t, snapshots[..|snapshots| - 1]), Latest(snapshots))
  {
    var k := |snapshots| - 1;
    ScanAllUpToDate(t, snapshots);
    ScanAllUpToDate(t, snapshots[..k]);
    ScanIsRebuildExactly(t, ScanAll(t, snapshots[..k]), Latest(snapshots[..k]), snapshots[k]);
  }

  /** So with readable files incremental indexing is a full rebuild, whatever was scanned before. */
  lemma IncrementalIsRebuild(t: Tools, snapshots: seq<seq<WalkedFile>>)
    requires CollisionFree(t) && Sound(snapshots) && snapshots != []
    requires Readable(t, Latest(snapshots))
    ensures ScanAll(t, snapshots) == ScanState(t, EMPTY_INDEX, Latest(snapshots))
  {
    IncrementalIsRebuildExactly(t, snapshots);
  }

  lemma {:induction false} NothingChanged(t: Tools, stored: map<string, string>, walk: seq<WalkedFile>)
    requires forall i :: 0 <= i < |walk| ==> Same(t, stored, walk[i])
    ensures Changed(t, stored, walk) == []
  {
    if walk != [] { NothingChanged(t, stored, walk[..|walk| - 1]); }
  }

  lemma QuietScan(t: Tools, ix: Index, walk: seq<WalkedFile>)
    requires ix.hashes.Keys == Paths(walk)
    requires forall i :: 0 <= i < |walk| ==> Same(t, ix.hashes, walk[i])
    ensures var d := Delta(t, ix.hashes, walk);
            d.changed == [] && d.deleted == {} && ScanState(t, ix, walk) == ix
  {
    NothingChanged(t, ix.hashes, walk);
    assert ix.hashes.Keys - Paths(walk) == {};
    assert ix.hashes - {} == ix.hashes;
    assert DeleteFiles(ix, {}) == ix;
  }

  /** An immediate rescan reports nothing changed and nothing deleted, and leaves the index alone. */
  lemma RescanIsQuiet(t: Tools, snapshots: seq<seq<WalkedFile>>)
    requires CollisionFree(t) && Sound(snapshots)
    ensures var ix := ScanAll(t, snapshots);
            var d := Delta(t, ix.hashes, Latest(snapshots));
            d.changed == [] && d.deleted == {} && ScanState(t, ix, Latest(snapshots)) == ix
  {
    ScanAllUpToDate(t, snapshots);
    QuietScan(t, ScanAll(t, snapshots), Latest(snapshots));
  }
}
