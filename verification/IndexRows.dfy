/** What the index holds for a file, in terms of the symbols and references extracted from it, and what a scan
    reports (src/symbols.rs:699-749, src/hashes.rs:87-125). */
module IndexRows {
  import opened Lists
  import opened Indexing
  import opened IndexTheorems

  // ----- rows -----

  /** The first symbol with this name and kind. */
  ghost predicate FirstSymbol(symbols: seq<Symbol>, i: int, name: string, kind: string)
  {
    && 0 <= i < |symbols| && symbols[i].name == name && symbols[i].kind == kind
    && forall k :: 0 <= k < i ==> symbols[k].name != name || symbols[k].kind != kind
  }

  ghost predicate NoSymbol(symbols: seq<Symbol>, name: string, kind: string)
  {
    forall k :: 0 <= k < |symbols| ==> symbols[k].name != name || symbols[k].kind != kind
  }

  /** A row for every name and kind extracted, with the first symbol that has them, and no others. */
  ghost predicate SymbolRow(rows: map<SymbolKey, Symbol>, file: string, symbols: seq<Symbol>, key: SymbolKey)
  {
    && (key in rows <==> key.file == file && !NoSymbol(symbols, key.name, key.kind))
    && (key in rows ==> exists i :: FirstSymbol(symbols, i, key.name, key.kind) && rows[key] == symbols[i])
  }

  lemma {:induction false} SymbolRows(file: string, symbols: seq<Symbol>, key: SymbolKey)
    ensures SymbolRow(InsertSymbols(map[], file, symbols), file, symbols, key)
  {
    if symbols != [] {
      var k := |symbols| - 1;
      SymbolRows(file, symbols[..k], key);
      NextSymbolRow(InsertSymbols(map[], file, symbols[..k]), file, symbols, key);
    }
  }

  lemma NextSymbolRow(rows: map<SymbolKey, Symbol>, file: string, symbols: seq<Symbol>, key: SymbolKey)
    requires symbols != [] && SymbolRow(rows, file, symbols[..|symbols| - 1], key)
    ensures SymbolRow(InsertSymbol(rows, file, symbols[|symbols| - 1]), file, symbols, key)
  {
    var k := |symbols| - 1;
    assert forall i :: 0 <= i < k ==> symbols[..k][i] == symbols[i];
    if key in rows {
      var i :| FirstSymbol(symbols[..k], i, key.name, key.kind) && rows[key] == symbols[..k][i];
      assert FirstSymbol(symbols, i, key.name, key.kind);
    } else if key == SymbolKey(file, symbols[k].name, symbols[k].kind) {
      assert FirstSymbol(symbols, k, key.name, key.kind);
    }
  }

  /** A row for every reference that names a symbol or a file. */
  ghost predicate RefRowFor(rows: set<RefRow>, file: string, refs: seq<Ref>, row: RefRow)
  {
    row in rows <==> row.file == file && row.ref in refs && (row.ref.toSymbol != "" || row.ref.toFile != "")
  }

  lemma {:induction false} RefRows(file: string, refs: seq<Ref>, row: RefRow)
    ensures RefRowFor(InsertRefs({}, file, refs), file, refs, row)
  {
    if refs != [] {
      var k := |refs| - 1;
      RefRows(file, refs[..k], row);
      assert refs == refs[..k] + [refs[k]];
    }
  }

  /** What a scan stores for a file that was extracted, exactly. */
  lemma FreshExactly(file: string, fs: FileSymbols)
    ensures forall key :: SymbolRow(FreshRows(file, fs).symbols, file, fs.symbols, key)
    ensures forall row :: RefRowFor(FreshRows(file, fs).refs, file, fs.refs, row)
  {
    forall key ensures SymbolRow(FreshRows(file, fs).symbols, file, fs.symbols, key) { SymbolRows(file, fs.symbols, key); }
    forall row ensures RefRowFor(FreshRows(file, fs).refs, file, fs.refs, row) { RefRows(file, fs.refs, row); }
  }

  // ----- what a scan reports -----

  function IsChanged(t: Tools, stored: map<string, string>): WalkedFile -> bool
  {
    (f: WalkedFile) => !(f.path in stored && stored[f.path] == t.hash(f.content))
  }

  function IsUnchanged(t: Tools, stored: map<string, string>): WalkedFile -> bool
  {
    (f: WalkedFile) => f.path in stored && stored[f.path] == t.hash(f.content)
  }

  predicate HashFor(t: Tools, h: FileHash, f: WalkedFile)
  {
    h.path == f.path && h.sha256 == t.hash(f.content) && h.size == |f.content| && h.language == t.language(f.path)
  }

  ghost predicate ChangedAt(t: Tools, changed: seq<FileHash>, walk: seq<WalkedFile>, at: seq<nat>)
  {
    |changed| == |at| && forall j :: 0 <= j < |at| && at[j] < |walk| ==> HashFor(t, changed[j], walk[at[j]])
  }

  ghost predicate PathsAt(paths: seq<string>, walk: seq<WalkedFile>, at: seq<nat>)
  {
    |paths| == |at| && forall j :: 0 <= j < |at| && at[j] < |walk| ==> paths[j] == walk[at[j]].path
  }

  /** Every walked file is reported once, in order: as unchanged if the stored hash is its own, as changed with its
      new hash otherwise; deleted is what is stored and was not walked. */
  ghost predicate Reports(t: Tools, stored: map<string, string>, walk: seq<WalkedFile>, d: ScanDelta)
  {
    && (exists at :: Places(IsChanged(t, stored), walk, at) && ChangedAt(t, d.changed, walk, at))
    && (exists at :: Places(IsUnchanged(t, stored), walk, at) && PathsAt(d.same, walk, at))
    && forall path :: path in d.deleted <==> path in stored && forall i :: 0 <= i < |walk| ==> walk[i].path != path
  }

  function ChangedEntry(t: Tools, stored: map<string, string>): WalkedFile -> seq<FileHash>
  {
    (f: WalkedFile) => if Same(t, stored, f) then [] else [ToHash(t, f)]
  }

  function SameEntry(t: Tools, stored: map<string, string>): WalkedFile -> seq<string>
  {
    (f: WalkedFile) => if Same(t, stored, f) then [f.path] else []
  }

  lemma {:induction false} OneByOne(t: Tools, stored: map<string, string>, walk: seq<WalkedFile>)
    ensures Changed(t, stored, walk) == FlatMap(ChangedEntry(t, stored), walk)
    ensures Unchanged(t, stored, walk) == FlatMap(SameEntry(t, stored), walk)
  {
    if walk != [] { OneByOne(t, stored, walk[..|walk| - 1]); }
  }

  lemma DeltaExactly(t: Tools, stored: map<string, string>, walk: seq<WalkedFile>)
    ensures Reports(t, stored, walk, Delta(t, stored, walk))
  {
    ReportsChanged(t, stored, walk);
    ReportsSame(t, stored, walk);
    var d := Delta(t, stored, walk);
    forall path ensures path in d.deleted <==> path in stored && forall i :: 0 <= i < |walk| ==> walk[i].path != path {
    }
  }

  lemma ReportsChanged(t: Tools, stored: map<string, string>, walk: seq<WalkedFile>)
    ensures exists at :: Places(IsChanged(t, stored), walk, at) && ChangedAt(t, Changed(t, stored, walk), walk, at)
  {
    var at := FlatMapPlaces(ChangedEntry(t, stored), IsChanged(t, stored), walk);
    OneByOne(t, stored, walk);
    var changed := Changed(t, stored, walk);
    forall j | 0 <= j < |at| ensures HashFor(t, changed[j], walk[at[j]]) {
      assert ChangedEntry(t, stored)(walk[at[j]]) == [changed[j]];
    }
    assert ChangedAt(t, changed, walk, at);
  }

  lemma ReportsSame(t: Tools, stored: map<string, string>, walk: seq<WalkedFile>)
    ensures exists at :: Places(IsUnchanged(t, stored), walk, at) && PathsAt(Unchanged(t, stored, walk), walk, at)
  {
    var at := FlatMapPlaces(SameEntry(t, stored), IsUnchanged(t, stored), walk);
    OneByOne(t, stored, walk);
    var same := Unchanged(t, stored, walk);
    forall j | 0 <= j < |at| ensures same[j] == walk[at[j]].path {
      assert SameEntry(t, stored)(walk[at[j]]) == [same[j]];
    }
    assert PathsAt(same, walk, at);
  }
}
