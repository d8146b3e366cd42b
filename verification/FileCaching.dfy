/** The file content cache (src/file_cache.rs:11-103): a bounded map with a recency queue, against the
    plain history of what was inserted. */
module FileCaching {
  import opened Sets

  datatype CachedFile = CachedFile(hash: int, contentLen: nat)

  datatype CacheResult = Miss | Unchanged(originalLen: nat) | Changed

  datatype CacheState = CacheState(entries: map<string, CachedFile>, order: seq<string>)

  const EMPTY_CACHE := CacheState(map[], [])

  // ----- the operations, as functions of the state -----

  function Without(order: seq<string>, path: string): seq<string>
  {
    if order == [] then []
    else Without(order[..|order| - 1], path) + if order[|order| - 1] == path then [] else [order[|order| - 1]]
  }

  function Evicted(s: CacheState, maxEntries: nat): CacheState
  {
    if |s.entries| >= maxEntries && s.order != [] then CacheState(s.entries - {s.order[0]}, s.order[1..]) else s
  }

  function Insert(s: CacheState, maxEntries: nat, path: string, file: CachedFile): CacheState
  {
    if path in s.entries then CacheState(s.entries[path := file], Without(s.order, path) + [path])
    else
      var s1 := Evicted(s, maxEntries);
      CacheState(s1.entries[path := file], s1.order + [path])
  }

  function Check(s: CacheState, path: string, hash: int): CacheResult
  {
    if path !in s.entries then Miss
    else if s.entries[path].hash == hash then Unchanged(s.entries[path].contentLen)
    else Changed
  }

  // ----- the cache, as the code updates it -----

  class FileCache {
    var entries: map<string, CachedFile>
    var order: seq<string>
    const maxEntries: nat
    const computeHash: string -> int

    function State(): CacheState
      reads this
    {
      CacheState(entries, order)
    }

    constructor (maxEntries: nat, computeHash: string -> int)
      ensures this.maxEntries == maxEntries && this.computeHash == computeHash
      ensures State() == EMPTY_CACHE
    {
      this.maxEntries, this.computeHash := maxEntries, computeHash;
      entries, order := map[], [];
    }

    method CheckFile(path: string, content: string) returns (r: CacheResult)
      ensures r == Check(State(), path, computeHash(content))
    {
      var newHash := computeHash(content);
      if path !in entries { return Miss; }
      var cached := entries[path];
      if cached.hash == newHash { return Unchanged(cached.contentLen); }
      return Changed;
    }

    method InsertFile(path: string, content: string)
      modifies this
      ensures State() == Insert(old(State()), maxEntries, path, CachedFile(computeHash(content), |content|))
    {
      var file := CachedFile(computeHash(content), |content|);
      if path in entries {
        entries := entries[path := file];
        Retain(path);
        order := order + [path];
      } else {
        if |entries| >= maxEntries {
          if order != [] {
            var oldest := order[0];
            order := order[1..];
            entries := entries - {oldest};
          }
        }
        entries := entries[path := file];
        order := order + [path];
      }
    }

    /** `order.retain(|p| p != path)` */
    method Retain(path: string)
      modifies this`order
      ensures order == Without(old(order), path)
    {
      var kept := [];
      for i := 0 to |order|
        invariant order == old(order)
        invariant kept == Without(order[..i], path)
      {
        assert order[..i + 1][..i] == order[..i];
        if order[i] != path { kept := kept + [order[i]]; }
      }
      assert order[..|order|] == order;
      order := kept;
    }

    method Clear()
      modifies this
      ensures State() == EMPTY_CACHE
    {
      entries := map[];
      order := [];
    }
  }

  // ----- the plain history -----

  datatype Op = Insertion(path: string, content: string) | Clearing

  function Run(maxEntries: nat, hash: string -> int, h: seq<Op>): CacheState
  {
    if h == [] then EMPTY_CACHE
    else
      var s := Run(maxEntries, hash, h[..|h| - 1]);
      match h[|h| - 1]
      case Clearing => EMPTY_CACHE
      case Insertion(p, c) => Insert(s, maxEntries, p, CachedFile(hash(c), |c|))
  }

  /** When `path` was last inserted since the last clearing; -1 if it was not. */
  function LastInsert(h: seq<Op>, path: string): (i: int)
    ensures -1 <= i < |h|
    ensures i >= 0 ==> h[i].Insertion? && h[i].path == path
  {
    if h == [] then -1
    else
      var k := |h| - 1;
      match h[k]
      case Clearing => -1
      case Insertion(p, _) => if p == path then k else LastInsert(h[..k], path)
  }

  predicate Live(h: seq<Op>, path: string)
  {
    LastInsert(h, path) >= 0
  }

  /** The content `path` was last inserted with. */
  function LastContent(h: seq<Op>, path: string): string
    requires Live(h, path)
  {
    h[LastInsert(h, path)].content
  }

  /** The live paths inserted more recently than `path`. */
  ghost function Newer(h: seq<Op>, path: string): set<string>
  {
    set i | 0 <= i < |h| && h[i].Insertion? && LastInsert(h, h[i].path) > LastInsert(h, path) :: h[i].path
  }

  /** A capacity of 0 still keeps one file: insertion evicts before it adds. */
  function Capacity(maxEntries: nat): nat
  {
    if maxEntries == 0 then 1 else maxEntries
  }

  // ----- the invariant -----

  ghost predicate ByRecency(h: seq<Op>, order: seq<string>)
  {
    && (forall i :: 0 <= i < |order| ==> Live(h, order[i]))
    && (forall i, j :: 0 <= i < j < |order| ==> LastInsert(h, order[i]) < LastInsert(h, order[j]))
  }

  /** Map and queue agree on `p`, and what is held for it is its last content. */
  ghost predicate HoldsPath(hash: string -> int, h: seq<Op>, s: CacheState, p: string)
  {
    && (p in s.entries <==> p in s.order)
    && (p in s.entries ==>
          Live(h, p) && s.entries[p] == CachedFile(hash(LastContent(h, p)), |LastContent(h, p)|))
  }

  ghost predicate HoldsLatest(hash: string -> int, h: seq<Op>, s: CacheState)
  {
    forall p :: HoldsPath(hash, h, s, p)
  }

  /** Whatever is live but not held is older than everything held, and the cache is full. */
  ghost predicate DropsOldest(maxEntries: nat, h: seq<Op>, order: seq<string>)
  {
    && |order| <= Capacity(maxEntries)
    && forall p :: Live(h, p) && p !in order ==>
         |order| == Capacity(maxEntries) && LastInsert(h, p) < LastInsert(h, order[0])
  }

  ghost predicate Inv(maxEntries: nat, hash: string -> int, h: seq<Op>, s: CacheState)
  {
    ByRecency(h, s.order) && HoldsLatest(hash, h, s) && DropsOldest(maxEntries, h, s.order)
  }

  // ----- facts about Without -----

  lemma {:induction false} WithoutMember(order: seq<string>, path: string)
    ensures forall p :: p in Without(order, path) <==> p in order && p != path
  {
    if order != [] {
      var k := |order| - 1;
      WithoutMember(order[..k], path);
      assert order == order[..k] + [order[k]];
    }
  }

  lemma {:induction false} WithoutAbsent(order: seq<string>, path: string)
    requires path !in order
    ensures Without(order, path) == order
  {
    if order != [] {
      var k := |order| - 1;
      WithoutAbsent(order[..k], path);
      assert order == order[..k] + [order[k]];
    }
  }

  lemma {:induction false} WithoutSplit(a: seq<string>, b: seq<string>, path: string)
    requires path !in a && path !in b
    ensures Without(a + [path] + b, path) == a + b
  {
    if b == [] {
      WithoutAbsent(a, path);
      assert a + [path] + b == a + [path];
      assert (a + [path])[..|a|] == a;
    } else {
      var k := |b| - 1;
      assert (a + [path] + b)[..|a| + 1 + k] == a + [path] + b[..k];
      WithoutSplit(a, b[..k], path);
      assert a + b[..k] + [b[k]] == a + b;
    }
  }

  lemma NoDuplicates(h: seq<Op>, order: seq<string>)
    requires ByRecency(h, order)
    ensures forall i, j :: 0 <= i < j < |order| ==> order[i] != order[j]
  {
  }

  lemma {:induction false} CountDistinct(order: seq<string>, s: set<string>)
    requires forall i, j :: 0 <= i < j < |order| ==> order[i] != order[j]
    requires forall p :: p in s <==> p in order
    ensures |s| == |order|
  {
    if order == [] {
      assert s == {};
    } else {
      var k := |order| - 1;
      var last := order[k];
      assert order == order[..k] + [last];
      CountDistinct(order[..k], s - {last});
      assert s == (s - {last}) + {last};
    }
  }

  // ----- insertion keeps the invariant -----

  lemma LastInsertStep(h: seq<Op>, path: string, content: string, p: string)
    ensures LastInsert(h + [Insertion(path, content)], p) == if p == path then |h| else LastInsert(h, p)
  {
    assert (h + [Insertion(path, content)])[..|h|] == h;
  }

  lemma InsertByRecency(h: seq<Op>, order: seq<string>, path: string, content: string)
    requires ByRecency(h, order) && path !in order
    ensures ByRecency(h + [Insertion(path, content)], order + [path])
  {
    var h', order' := h + [Insertion(path, content)], order + [path];
    forall i | 0 <= i < |order'| ensures LastInsert(h', order'[i]) == if i < |order| then LastInsert(h, order[i]) else |h| {
      LastInsertStep(h, path, content, order'[i]);
    }
  }

  lemma InsertHoldsPath(hash: string -> int, h: seq<Op>, s: CacheState, path: string, content: string, p: string)
    requires HoldsPath(hash, h, s, p) && path !in s.order
    ensures HoldsPath(hash, h + [Insertion(path, content)],
                      CacheState(s.entries[path := CachedFile(hash(content), |content|)], s.order + [path]), p)
  {
    LastInsertStep(h, path, content, p);
  }

  lemma InsertHoldsLatest(hash: string -> int, h: seq<Op>, s: CacheState, path: string, content: string)
    requires HoldsLatest(hash, h, s) && path !in s.order
    ensures HoldsLatest(hash, h + [Insertion(path, content)],
                        CacheState(s.entries[path := CachedFile(hash(content), |content|)], s.order + [path]))
  {
    var s' := CacheState(s.entries[path := CachedFile(hash(content), |content|)], s.order + [path]);
    forall p ensures HoldsPath(hash, h + [Insertion(path, content)], s', p) {
      assert HoldsPath(hash, h, s, p);
      InsertHoldsPath(hash, h, s, path, content, p);
    }
  }

  /** Taking `path` out of the queue leaves the rest in order and older things older. */
  lemma RemoveFromOrder(h: seq<Op>, order: seq<string>, k: nat)
    requires ByRecency(h, order) && k < |order|
    ensures var rest := order[..k] + order[k + 1..];
            && ByRecency(h, rest) && order[k] !in rest && Without(order, order[k]) == rest
            && (forall p :: p in rest <==> p in order && p != order[k])
  {
    NoDuplicates(h, order);
    assert order == order[..k] + [order[k]] + order[k + 1..];
    WithoutSplit(order[..k], order[k + 1..], order[k]);
    WithoutMember(order, order[k]);
  }

  lemma RemoveHoldsLatest(hash: string -> int, h: seq<Op>, s: CacheState, path: string, rest: seq<string>)
    requires HoldsLatest(hash, h, s) && forall p :: p in rest <==> p in s.order && p != path
    ensures HoldsLatest(hash, h, CacheState(s.entries - {path}, rest))
  {
    forall p ensures HoldsPath(hash, h, CacheState(s.entries - {path}, rest), p) {
      assert HoldsPath(hash, h, s, p);
    }
  }

  lemma MoveHoldsLatest(hash: string -> int, h: seq<Op>, s: CacheState, k: nat, content: string)
    requires ByRecency(h, s.order) && HoldsLatest(hash, h, s) && k < |s.order|
    ensures HoldsLatest(hash, h + [Insertion(s.order[k], content)],
                        CacheState(s.entries[s.order[k] := CachedFile(hash(content), |content|)],
                                   s.order[..k] + s.order[k + 1..] + [s.order[k]]))
  {
    var path, file := s.order[k], CachedFile(hash(content), |content|);
    var rest := s.order[..k] + s.order[k + 1..];
    RemoveFromOrder(h, s.order, k);
    RemoveHoldsLatest(hash, h, s, path, rest);
    InsertHoldsLatest(hash, h, CacheState(s.entries - {path}, rest), path, content);
    assert (s.entries - {path})[path := file] == s.entries[path := file];
  }

  lemma MoveKeepsInv(maxEntries: nat, hash: string -> int, h: seq<Op>, s: CacheState, path: string, content: string)
    requires Inv(maxEntries, hash, h, s) && path in s.entries
    ensures Inv(maxEntries, hash, h + [Insertion(path, content)],
                Insert(s, maxEntries, path, CachedFile(hash(content), |content|)))
  {
    assert HoldsPath(hash, h, s, path);
    var k :| 0 <= k < |s.order| && s.order[k] == path;
    RemoveFromOrder(h, s.order, k);
    InsertByRecency(h, s.order[..k] + s.order[k + 1..], path, content);
    MoveHoldsLatest(hash, h, s, k, content);
    MoveDropsOldest(maxEntries, h, s.order, k, content);
  }

  lemma MoveDropsOldest(maxEntries: nat, h: seq<Op>, order: seq<string>, k: nat, content: string)
    requires ByRecency(h, order) && DropsOldest(maxEntries, h, order) && k < |order|
    ensures DropsOldest(maxEntries, h + [Insertion(order[k], content)], order[..k] + order[k + 1..] + [order[k]])
  {
    var h', order' := h + [Insertion(order[k], content)], order[..k] + order[k + 1..] + [order[k]];
    RemoveFromOrder(h, order, k);
    forall p | Live(h', p) && p !in order'
      ensures |order'| == Capacity(maxEntries) && LastInsert(h', p) < LastInsert(h', order'[0])
    {
      assert order' == (order[..k] + order[k + 1..]) + [order[k]];
      LastInsertStep(h, order[k], content, p);
      LastInsertStep(h, order[k], content, order'[0]);
      assert p !in order;
    }
  }

  lemma EvictDropsOldest(maxEntries: nat, h: seq<Op>, order: seq<string>, path: string, content: string)
    requires ByRecency(h, order) && DropsOldest(maxEntries, h, order) && path !in order
    requires order != [] && |order| >= maxEntries
    ensures DropsOldest(maxEntries, h + [Insertion(path, content)], order[1..] + [path])
  {
    var h', order' := h + [Insertion(path, content)], order[1..] + [path];
    forall p | Live(h', p) && p !in order'
      ensures LastInsert(h', p) < LastInsert(h', order'[0])
    {
      LastInsertStep(h, path, content, p);
      LastInsertStep(h, path, content, order'[0]);
      if p != order[0] {
        assert order == [order[0]] + order[1..];
        assert p !in order;
      }
    }
  }

  /** Evicting the front leaves the rest in order. */
  lemma PopFront(h: seq<Op>, order: seq<string>)
    requires ByRecency(h, order) && order != []
    ensures ByRecency(h, order[1..])
    ensures forall p :: p in order[1..] <==> p in order && p != order[0]
  {
    var rest := order[1..];
    assert order == [order[0]] + rest;
    assert forall i :: 0 <= i < |rest| ==> rest[i] == order[i + 1];
  }

  lemma AddAfterEviction(maxEntries: nat, hash: string -> int, h: seq<Op>, s: CacheState, path: string, content: string)
    requires Inv(maxEntries, hash, h, s) && path !in s.entries
    requires s.order != [] && |s.order| >= maxEntries
    ensures Inv(maxEntries, hash, h + [Insertion(path, content)],
                CacheState((s.entries - {s.order[0]})[path := CachedFile(hash(content), |content|)], s.order[1..] + [path]))
  {
    assert HoldsPath(hash, h, s, path);
    PopFront(h, s.order);
    InsertByRecency(h, s.order[1..], path, content);
    RemoveHoldsLatest(hash, h, s, s.order[0], s.order[1..]);
    InsertHoldsLatest(hash, h, CacheState(s.entries - {s.order[0]}, s.order[1..]), path, content);
    EvictDropsOldest(maxEntries, h, s.order, path, content);
  }

  lemma KeysAreQueue(hash: string -> int, h: seq<Op>, s: CacheState)
    requires HoldsLatest(hash, h, s)
    ensures forall p :: p in s.entries <==> p in s.order
  {
    forall p ensures p in s.entries <==> p in s.order {
      assert HoldsPath(hash, h, s, p);
    }
  }

  lemma AddKeepsInv(maxEntries: nat, hash: string -> int, h: seq<Op>, s: CacheState, path: string, content: string)
    requires Inv(maxEntries, hash, h, s) && path !in s.entries
    ensures Inv(maxEntries, hash, h + [Insertion(path, content)],
                Insert(s, maxEntries, path, CachedFile(hash(content), |content|)))
  {
    NoDuplicates(h, s.order);
    KeysAreQueue(hash, h, s);
    CountDistinct(s.order, s.entries.Keys);
    if |s.entries| >= maxEntries && s.order != [] {
      AddAfterEviction(maxEntries, hash, h, s, path, content);
    } else {
      InsertByRecency(h, s.order, path, content);
      InsertHoldsLatest(hash, h, s, path, content);
      RoomDropsOldest(maxEntries, h, s.order, path, content);
    }
  }

  lemma RoomDropsOldest(maxEntries: nat, h: seq<Op>, order: seq<string>, path: string, content: string)
    requires DropsOldest(maxEntries, h, order) && (order == [] || |order| < maxEntries)
    ensures DropsOldest(maxEntries, h + [Insertion(path, content)], order + [path])
  {
    var h' := h + [Insertion(path, content)];
    forall p | p !in order + [path] ensures !Live(h', p) {
      LastInsertStep(h, path, content, p);
    }
  }

  lemma {:induction false} RunKeepsInv(maxEntries: nat, hash: string -> int, h: seq<Op>)
    ensures Inv(maxEntries, hash, h, Run(maxEntries, hash, h))
  {
    if h != [] {
      var before := h[..|h| - 1];
      RunKeepsInv(maxEntries, hash, before);
      assert h == before + [h[|h| - 1]];
      match h[|h| - 1]
      case Clearing =>
      case Insertion(p, c) =>
        if p in Run(maxEntries, hash, before).entries {
          MoveKeepsInv(maxEntries, hash, before, Run(maxEntries, hash, before), p, c);
        } else {
          AddKeepsInv(maxEntries, hash, before, Run(maxEntries, hash, before), p, c);
        }
    }
  }

  // ----- the theorems -----

  /** Everything newer than the i-th path of the queue stands behind it. */
  lemma NewerThanHeld(maxEntries: nat, h: seq<Op>, order: seq<string>, i: nat)
    requires ByRecency(h, order) && DropsOldest(maxEntries, h, order) && i < |order|
    ensures |Newer(h, order[i])| == |order| - 1 - i
  {
    var behind := order[i + 1..];
    forall p ensures p in Newer(h, order[i]) <==> p in behind {
      if p in order {
        var j :| 0 <= j < |order| && order[j] == p;
        if j > i { assert behind[j - i - 1] == p; }
      } else if Live(h, p) {
        assert LastInsert(h, order[0]) <= LastInsert(h, order[i]);
      }
    }
    NoDuplicates(h, order);
    CountDistinct(behind, Newer(h, order[i]));
  }

  lemma NewerThanDropped(maxEntries: nat, h: seq<Op>, order: seq<string>, path: string)
    requires ByRecency(h, order) && DropsOldest(maxEntries, h, order) && Live(h, path) && path !in order
    ensures |Newer(h, path)| >= Capacity(maxEntries)
  {
    var held := set p | p in order;
    NoDuplicates(h, order);
    CountDistinct(order, held);
    forall p | p in held ensures p in Newer(h, path) {
      assert LastInsert(h, order[0]) <= LastInsert(h, p) by {
        var j :| 0 <= j < |order| && order[j] == p;
      }
    }
    SubsetSize(held, Newer(h, path));
  }

  lemma QueuedIsLastN(maxEntries: nat, h: seq<Op>, order: seq<string>, path: string)
    requires ByRecency(h, order) && DropsOldest(maxEntries, h, order)
    ensures path in order <==> Live(h, path) && |Newer(h, path)| < Capacity(maxEntries)
  {
    if path in order {
      var i :| 0 <= i < |order| && order[i] == path;
      NewerThanHeld(maxEntries, h, order, i);
    } else if Live(h, path) {
      NewerThanDropped(maxEntries, h, order, path);
    }
  }

  /** After every history: a path is held exactly when it is among the last N distinct paths inserted
      since the last clearing (N at least 1), the queue holds exactly the map's keys, each once, and
      lists them by most recent insertion. */
  lemma HoldsLastN(maxEntries: nat, hash: string -> int, h: seq<Op>, path: string)
    ensures var s := Run(maxEntries, hash, h);
            && (path in s.entries <==> Live(h, path) && |Newer(h, path)| < Capacity(maxEntries))
            && (path in s.entries <==> path in s.order)
            && (forall i, j :: 0 <= i < j < |s.order| ==> s.order[i] != s.order[j])
            && (forall i, j :: 0 <= i < j < |s.order| ==> LastInsert(h, s.order[i]) < LastInsert(h, s.order[j]))
  {
    RunKeepsInv(maxEntries, hash, h);
    var s := Run(maxEntries, hash, h);
    assert HoldsPath(hash, h, s, path);
    QueuedIsLastN(maxEntries, h, s.order, path);
    NoDuplicates(h, s.order);
  }

  /** `check` answers Unchanged exactly when the path is among those N and the content it was last
      inserted with has the same hash, and then reports that content's length; Miss exactly when the
      path is not among them. */
  lemma CheckAnswersExactly(maxEntries: nat, hash: string -> int, h: seq<Op>, path: string, content: string)
    ensures var r := Check(Run(maxEntries, hash, h), path, hash(content));
            var held := Live(h, path) && |Newer(h, path)| < Capacity(maxEntries);
            && (r.Miss? <==> !held)
            && (r.Unchanged? <==> held && hash(LastContent(h, path)) == hash(content))
            && (r.Unchanged? ==> r.originalLen == |LastContent(h, path)|)
  {
    RunKeepsInv(maxEntries, hash, h);
    var s := Run(maxEntries, hash, h);
    assert HoldsPath(hash, h, s, path);
    QueuedIsLastN(maxEntries, h, s.order, path);
  }
}
