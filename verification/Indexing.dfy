/** Incremental indexing of a project: content hashes (src/hashes.rs:87-212), symbol and reference
    tables (src/symbols.rs:699-775), and the order in which a scan updates them (src/main.rs:1132-1169).

    Tables hold one project. Hashing, symbol extraction and the language of a path are parameters. */
module Indexing {
  import opened Wrappers

  /** A file the walk visits: not ignored, not binary, of 1 byte to 1 MB. */
  datatype WalkedFile = WalkedFile(path: string, content: string)

  datatype FileHash = FileHash(path: string, sha256: string, size: nat, language: string)

  datatype ScanDelta = ScanDelta(changed: seq<FileHash>, same: seq<string>, deleted: set<string>)

  datatype Symbol = Symbol(name: string, kind: string, span: (nat, nat), exported: bool, signature: string)

  datatype Ref = Ref(fromSymbol: string, toFile: string, toSymbol: string, kind: string)

  datatype FileSymbols = FileSymbols(symbols: seq<Symbol>, refs: seq<Ref>)

  /** `UNIQUE(file_path, symbol_name, symbol_kind)` */
  datatype SymbolKey = SymbolKey(file: string, name: string, kind: string)

  datatype RefRow = RefRow(file: string, ref: Ref)

  datatype Index = Index(hashes: map<string, string>, symbols: map<SymbolKey, Symbol>, refs: set<RefRow>)

  const EMPTY_INDEX := Index(map[], map[], {})

  /** Symbols are extracted only from content that is UTF-8. */
  datatype Tools = Tools(
    hash: string -> string,
    utf8: string -> bool,
    language: string -> string,
    extract: (string, string) -> FileSymbols)

  // ----- compute_delta -----

  function ToHash(t: Tools, f: WalkedFile): FileHash
  {
    FileHash(f.path, t.hash(f.content), |f.content|, t.language(f.path))
  }

  predicate Same(t: Tools, stored: map<string, string>, f: WalkedFile)
  {
    f.path in stored && stored[f.path] == t.hash(f.content)
  }

  function Changed(t: Tools, stored: map<string, string>, walk: seq<WalkedFile>): seq<FileHash>
  {
    if walk == [] then []
    else
      var f := walk[|walk| - 1];
      Changed(t, stored, walk[..|walk| - 1]) + if Same(t, stored, f) then [] else [ToHash(t, f)]
  }

  function Unchanged(t: Tools, stored: map<string, string>, walk: seq<WalkedFile>): seq<string>
  {
    if walk == [] then []
    else
      var f := walk[|walk| - 1];
      Unchanged(t, stored, walk[..|walk| - 1]) + if Same(t, stored, f) then [f.path] else []
  }

  function Paths(walk: seq<WalkedFile>): set<string>
  {
    set i | 0 <= i < |walk| :: walk[i].path
  }

  function Delta(t: Tools, stored: map<string, string>, walk: seq<WalkedFile>): ScanDelta
  {
    ScanDelta(Changed(t, stored, walk), Unchanged(t, stored, walk), stored.Keys - Paths(walk))
  }

  method ComputeDelta(t: Tools, walk: seq<WalkedFile>, stored: map<string, string>) returns (delta: ScanDelta)
    ensures delta == Delta(t, stored, walk)
  {
    var changed, same, seen := [], [], {};
    for i := 0 to |walk|
      invariant changed == Changed(t, stored, walk[..i])
      invariant same == Unchanged(t, stored, walk[..i])
      invariant seen == Paths(walk[..i])
    {
      assert walk[..i + 1][..i] == walk[..i];
      var f := walk[i];
      seen := seen + {f.path};
      assert seen == Paths(walk[..i + 1]) by {
        assert forall k :: 0 <= k < i ==> walk[..i][k] == walk[..i + 1][k];
        assert walk[..i + 1][i] == f;
      }
      if f.path in stored {
        if stored[f.path] == t.hash(f.content) {
          same := same + [f.path];
        } else {
          changed := changed + [ToHash(t, f)];
        }
      } else {
        changed := changed + [ToHash(t, f)];
      }
    }
    assert walk[..|walk|] == walk;
    delta := ScanDelta(changed, same, stored.Keys - seen);
  }

  // ----- the tables -----

  function Upsert(hashes: map<string, string>, changed: seq<FileHash>): map<string, string>
  {
    if changed == [] then hashes
    else
      var h := changed[|changed| - 1];
      Upsert(hashes, changed[..|changed| - 1])[h.path := h.sha256]
  }

  function DeleteFile(ix: Index, file: string): Index
  {
    ix.(symbols := map k | k in ix.symbols && k.file != file :: ix.symbols[k],
        refs := set r | r in ix.refs && r.file != file)
  }

  /** `INSERT OR IGNORE` */
  function InsertSymbol(table: map<SymbolKey, Symbol>, file: string, s: Symbol): map<SymbolKey, Symbol>
  {
    var key := SymbolKey(file, s.name, s.kind);
    if key in table then table else table[key := s]
  }

  function InsertSymbols(table: map<SymbolKey, Symbol>, file: string, symbols: seq<Symbol>): map<SymbolKey, Symbol>
  {
    if symbols == [] then table
    else InsertSymbol(InsertSymbols(table, file, symbols[..|symbols| - 1]), file, symbols[|symbols| - 1])
  }

  function InsertRefs(table: set<RefRow>, file: string, refs: seq<Ref>): set<RefRow>
  {
    if refs == [] then table
    else
      var r := refs[|refs| - 1];
      InsertRefs(table, file, refs[..|refs| - 1]) + if r.toSymbol == "" && r.toFile == "" then {} else {RefRow(file, r)}
  }

  function StoreFile(ix: Index, file: string, fs: FileSymbols): Index
  {
    var cleared := DeleteFile(ix, file);
    cleared.(symbols := InsertSymbols(cleared.symbols, file, fs.symbols),
             refs := InsertRefs(cleared.refs, file, fs.refs))
  }

  class Database {
    var hashes: map<string, string>
    var symbols: map<SymbolKey, Symbol>
    var refs: set<RefRow>

    ghost function State(): Index
      reads this
    {
      Index(hashes, symbols, refs)
    }

    constructor ()
      ensures State() == EMPTY_INDEX
    {
      hashes, symbols, refs := map[], map[], {};
    }

    method StoreHashes(changed: seq<FileHash>, deleted: set<string>)
      modifies this`hashes
      ensures hashes == Upsert(old(hashes) - deleted, changed)
    {
      hashes := hashes - deleted;
      for i := 0 to |changed|
        invariant hashes == Upsert(old(hashes) - deleted, changed[..i])
      {
        assert changed[..i + 1][..i] == changed[..i];
        hashes := hashes[changed[i].path := changed[i].sha256];
      }
      assert changed[..|changed|] == changed;
    }

    method StoreSymbols(file: string, fs: FileSymbols)
      modifies this`symbols, this`refs
      ensures State() == StoreFile(old(State()), file, fs)
    {
      symbols := map k | k in symbols && k.file != file :: symbols[k];
      refs := set r | r in refs && r.file != file;
      ghost var cleared := State();
      assert cleared == DeleteFile(old(State()), file);
      for i := 0 to |fs.symbols|
        invariant symbols == InsertSymbols(cleared.symbols, file, fs.symbols[..i])
        invariant refs == cleared.refs && hashes == old(hashes)
      {
        assert fs.symbols[..i + 1][..i] == fs.symbols[..i];
        symbols := InsertSymbol(symbols, file, fs.symbols[i]);
      }
      assert fs.symbols[..|fs.symbols|] == fs.symbols;
      for i := 0 to |fs.refs|
        invariant refs == InsertRefs(cleared.refs, file, fs.refs[..i])
        invariant symbols == InsertSymbols(cleared.symbols, file, fs.symbols) && hashes == old(hashes)
      {
        assert fs.refs[..i + 1][..i] == fs.refs[..i];
        var r := fs.refs[i];
        if !(r.toSymbol == "" && r.toFile == "") { refs := refs + {RefRow(file, r)}; }
      }
      assert fs.refs[..|fs.refs|] == fs.refs;
    }

    method DeleteSymbols(files: set<string>)
      modifies this`symbols, this`refs
      ensures State() == DeleteFiles(old(State()), files)
    {
      var left := files;
      while left != {}
        invariant left <= files && hashes == old(hashes)
        invariant State() == DeleteFiles(old(State()), files - left)
        decreases left
      {
        var file :| file in left;
        symbols := map k | k in symbols && k.file != file :: symbols[k];
        refs := set r | r in refs && r.file != file;
        left := left - {file};
      }
      assert files - {} == files;
    }

    /** The indexing step of a scan: hashes first, then symbols of changed files, then deletions. */
    method Scan(t: Tools, walk: seq<WalkedFile>) returns (delta: ScanDelta)
      modifies this
      ensures delta == Delta(t, old(hashes), walk)
      ensures State() == ScanState(t, old(State()), walk)
    {
      delta := ComputeDelta(t, walk, hashes);
      StoreHashes(delta.changed, delta.deleted);
      ghost var stored := State();
      var changed := delta.changed;
      for i := 0 to |changed|
        invariant State() == StoreChanged(t, walk, stored, changed[..i])
      {
        assert changed[..i + 1][..i] == changed[..i];
        var text := ReadText(t, walk, changed[i].path);
        if text.Some? {
          var fs := t.extract(text.value, changed[i].language);
          StoreSymbols(changed[i].path, fs);
        }
      }
      assert changed[..|changed|] == changed;
      DeleteSymbols(delta.deleted);
    }
  }

  function DeleteFiles(ix: Index, files: set<string>): Index
  {
    ix.(symbols := map k | k in ix.symbols && k.file !in files :: ix.symbols[k],
        refs := set r | r in ix.refs && r.file !in files)
  }

  /** `read_to_string`, which fails on text that is not UTF-8. */
  function ReadText(t: Tools, walk: seq<WalkedFile>, path: string): Option<string>
  {
    if walk == [] then None
    else
      var f := walk[|walk| - 1];
      if f.path == path then if t.utf8(f.content) then Some(f.content) else None
      else ReadText(t, walk[..|walk| - 1], path)
  }

  function StoreChanged(t: Tools, walk: seq<WalkedFile>, ix: Index, changed: seq<FileHash>): Index
  {
    if changed == [] then ix
    else
      var before := StoreChanged(t, walk, ix, changed[..|changed| - 1]);
      var h := changed[|changed| - 1];
      var text := ReadText(t, walk, h.path);
      if text.Some? then StoreFile(before, h.path, t.extract(text.value, h.language)) else before
  }

  function ScanState(t: Tools, ix: Index, walk: seq<WalkedFile>): Index
  {
    var d := Delta(t, ix.hashes, walk);
    var stored := ix.(hashes := Upsert(ix.hashes - d.deleted, d.changed));
    DeleteFiles(StoreChanged(t, walk, stored, d.changed), d.deleted)
  }
}
