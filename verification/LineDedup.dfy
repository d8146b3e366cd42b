/** Windowed line deduplication of tool output (src/compress.rs:394-442). `norm` stands for trimming and
    lower-casing a line. */
module LineDedup {
  import opened Text

  /** A piece of the result: a line kept as it was, or the count of lines left out in its place. */
  datatype Item = Kept(line: string) | Omitted(count: nat)

  const WINDOW: nat := 10
  const MIN_LENGTH: nat := 15

  function Render(i: Item): string
  {
    match i
    case Kept(line) => line
    case Omitted(n) => "  [... " + Dec(n) + " similar lines omitted]"
  }

  function RenderAll(items: seq<Item>): seq<string>
  {
    seq(|items|, i requires 0 <= i < |items| => Render(items[i]))
  }

  // ----- one line, as a function -----

  datatype Progress = Progress(items: seq<Item>, seen: set<string>, dups: nat)

  function FlushDups(p: Progress): Progress
  {
    if p.dups > 0 then Progress(p.items + [Omitted(p.dups)], p.seen, 0) else p
  }

  function Keep(p: Progress, line: string, key: string): Progress
  {
    Progress(FlushDups(p).items + [Kept(line)], p.seen + {key}, 0)
  }

  function StepLine(norm: string -> string, lines: seq<string>, i: nat, p: Progress): Progress
    requires i < |lines|
  {
    var key := norm(lines[i]);
    if |key| < MIN_LENGTH then Keep(p, lines[i], key)
    else if key in p.seen then p.(dups := p.dups + 1)
    else
      var kept := Keep(p, lines[i], key);
      if i >= WINDOW then kept.(seen := kept.seen - {norm(lines[i - WINDOW])}) else kept
  }

  function StepLines(norm: string -> string, lines: seq<string>, n: nat): Progress
    requires n <= |lines|
  {
    if n == 0 then Progress([], {}, 0) else StepLine(norm, lines, n - 1, StepLines(norm, lines, n - 1))
  }

  function Dedup(norm: string -> string, lines: seq<string>): seq<Item>
  {
    FlushDups(StepLines(norm, lines, |lines|)).items
  }

  // ----- the loop as the code runs it -----

  /** The marker for the lines left out so far, if any. */
  method PushOmitted(result: seq<string>, dupCount: nat, ghost p: Progress) returns (r: seq<string>)
    requires result == RenderAll(p.items) && dupCount == p.dups
    ensures r == RenderAll(FlushDups(p).items)
  {
    r := result;
    if dupCount > 0 {
      r := r + [Render(Omitted(dupCount))];
    }
  }

  method DedupLines(norm: string -> string, input: string) returns (output: string)
    ensures output == if |TextLines(input)| < 5 then input else Join(RenderAll(Dedup(norm, TextLines(input))), "\n")
  {
    var lines := TextLines(input);
    if |lines| < 5 { return input; }
    var result: seq<string>, seen: set<string>, dupCount := [], {}, 0;
    ghost var p := Progress([], {}, 0);
    for i := 0 to |lines|
      invariant p == StepLines(norm, lines, i)
      invariant result == RenderAll(p.items) && seen == p.seen && dupCount == p.dups
    {
      var normalized := norm(lines[i]);
      ghost var q := p;
      p := StepLine(norm, lines, i, p);
      if |normalized| >= MIN_LENGTH && normalized in seen {
        dupCount := dupCount + 1;
        continue;
      }
      result := PushOmitted(result, dupCount, q);
      dupCount := 0;
      result := result + [lines[i]];
      seen := seen + {normalized};
      if |normalized| >= MIN_LENGTH && i >= WINDOW {
        seen := seen - {norm(lines[i - WINDOW])};
      }
    }
    result := PushOmitted(result, dupCount, p);
    output := JoinAll(result, "\n");
  }

  // ----- the account -----

  /** How many input lines the items stand for. */
  function Covered(items: seq<Item>): nat
  {
    if items == [] then 0
    else Covered(items[..|items| - 1]) + if items[|items| - 1].Kept? then 1 else items[|items| - 1].count
  }

  /** Line x was left out: it is long enough, and one of the first k items keeps a line like it. */
  ghost predicate LikeKept(norm: string -> string, line: string, items: seq<Item>, k: nat)
    requires k <= |items|
  {
    |norm(line)| >= MIN_LENGTH && exists j :: 0 <= j < k && items[j].Kept? && norm(items[j].line) == norm(line)
  }

  /** Item k tells the truth about the lines from where the items before it end. */
  ghost predicate TrueItem(norm: string -> string, lines: seq<string>, items: seq<Item>, k: nat)
    requires k < |items|
  {
    var at := Covered(items[..k]);
    match items[k]
    case Kept(line) => at < |lines| && line == lines[at]
    case Omitted(n) =>
      && n > 0 && at + n <= |lines|
      && (k > 0 ==> items[k - 1].Kept?)
      && (k + 1 < |items| ==> items[k + 1].Kept?)
      && forall x :: at <= x < at + n ==> LikeKept(norm, lines[x], items, k)
  }

  ghost predicate TrueItems(norm: string -> string, lines: seq<string>, items: seq<Item>)
  {
    forall k :: 0 <= k < |items| ==> TrueItem(norm, lines, items, k)
  }

  /** One of the items keeps a line with this normal form. */
  ghost predicate HasKey(norm: string -> string, items: seq<Item>, key: string)
  {
    exists j :: 0 <= j < |items| && items[j].Kept? && norm(items[j].line) == key
  }

  ghost predicate AllSeen(norm: string -> string, p: Progress)
  {
    forall key :: key in p.seen ==> HasKey(norm, p.items, key)
  }

  ghost predicate AllLikeKept(norm: string -> string, lines: seq<string>, items: seq<Item>, from: nat, to: nat)
    requires to <= |lines|
  {
    forall x :: from <= x < to ==> LikeKept(norm, lines[x], items, |items|)
  }

  /** What every step of the loop keeps; the last `dups` lines are left out but not yet counted. */
  ghost predicate Inv(norm: string -> string, lines: seq<string>, n: nat, p: Progress)
  {
    && n <= |lines| && Covered(p.items) + p.dups == n
    && TrueItems(norm, lines, p.items)
    && (p.items == [] || p.items[|p.items| - 1].Kept?)
    && AllLikeKept(norm, lines, p.items, n - p.dups, n)
    && AllSeen(norm, p)
  }

  lemma LikeKeptLater(norm: string -> string, line: string, items: seq<Item>, k: nat, more: seq<Item>)
    requires k <= |items| && LikeKept(norm, line, items, k)
    ensures LikeKept(norm, line, items + more, k)
  {
    var j :| 0 <= j < k && items[j].Kept? && norm(items[j].line) == norm(line);
    assert (items + more)[j] == items[j];
  }

  lemma AppendTrue(norm: string -> string, lines: seq<string>, items: seq<Item>, i: Item)
    requires TrueItems(norm, lines, items)
    requires i.Omitted? ==> items == [] || items[|items| - 1].Kept?
    requires TrueItem(norm, lines, items + [i], |items|)
    ensures TrueItems(norm, lines, items + [i])
  {
    var all := items + [i];
    forall k | 0 <= k < |all| ensures TrueItem(norm, lines, all, k) {
      if k < |items| {
        assert TrueItem(norm, lines, items, k);
        assert all[..k] == items[..k];
        if items[k].Omitted? {
          var at := Covered(items[..k]);
          forall x | at <= x < at + items[k].count ensures LikeKept(norm, lines[x], all, k) {
            LikeKeptLater(norm, lines[x], items, k, [i]);
          }
        }
      }
    }
  }

  lemma KeyLater(norm: string -> string, items: seq<Item>, key: string, all: seq<Item>)
    requires HasKey(norm, items, key) && |items| <= |all|
    requires forall j :: 0 <= j < |items| ==> all[j] == items[j]
    ensures HasKey(norm, all, key)
  {
    var j :| 0 <= j < |items| && items[j].Kept? && norm(items[j].line) == key;
    assert all[j] == items[j];
  }

  lemma FlushKeepsInv(norm: string -> string, lines: seq<string>, n: nat, p: Progress)
    requires Inv(norm, lines, n, p)
    ensures TrueItems(norm, lines, FlushDups(p).items) && Covered(FlushDups(p).items) == n
    ensures forall j :: 0 <= j < |p.items| ==> FlushDups(p).items[j] == p.items[j]
  {
    if p.dups > 0 {
      var i := Omitted(p.dups);
      var all := p.items + [i];
      assert all[..|p.items|] == p.items;
      forall x | n - p.dups <= x < n ensures LikeKept(norm, lines[x], all, |p.items|) {
        LikeKeptLater(norm, lines[x], p.items, |p.items|, [i]);
      }
      assert TrueItem(norm, lines, all, |p.items|);
      AppendTrue(norm, lines, p.items, i);
    }
  }

  /** The next line, kept after the items that reach it. */
  lemma KeptTrue(norm: string -> string, lines: seq<string>, items: seq<Item>)
    requires TrueItems(norm, lines, items) && Covered(items) < |lines|
    ensures var all := items + [Kept(lines[Covered(items)])];
            TrueItems(norm, lines, all) && Covered(all) == Covered(items) + 1
  {
    var i := Kept(lines[Covered(items)]);
    assert (items + [i])[..|items|] == items;
    assert TrueItem(norm, lines, items + [i], |items|);
    AppendTrue(norm, lines, items, i);
  }

  lemma KeptSeen(norm: string -> string, p: Progress, items: seq<Item>, line: string)
    requires AllSeen(norm, p) && |p.items| <= |items|
    requires forall j :: 0 <= j < |p.items| ==> items[j] == p.items[j]
    ensures AllSeen(norm, Progress(items + [Kept(line)], p.seen + {norm(line)}, 0))
  {
    var all := items + [Kept(line)];
    forall key | key in p.seen + {norm(line)} ensures HasKey(norm, all, key) {
      if key in p.seen { KeyLater(norm, p.items, key, all); } else { assert all[|items|] == Kept(line); }
    }
  }

  lemma KeepKeepsInv(norm: string -> string, lines: seq<string>, n: nat, p: Progress)
    requires Inv(norm, lines, n, p) && n < |lines|
    ensures Inv(norm, lines, n + 1, Keep(p, lines[n], norm(lines[n])))
  {
    FlushKeepsInv(norm, lines, n, p);
    var items := FlushDups(p).items;
    KeptTrue(norm, lines, items);
    KeptSeen(norm, p, items, lines[n]);
  }

  lemma DropKeepsInv(norm: string -> string, lines: seq<string>, n: nat, p: Progress)
    requires Inv(norm, lines, n, p) && n < |lines|
    requires |norm(lines[n])| >= MIN_LENGTH && norm(lines[n]) in p.seen
    ensures Inv(norm, lines, n + 1, p.(dups := p.dups + 1))
  {
    assert HasKey(norm, p.items, norm(lines[n]));
    assert LikeKept(norm, lines[n], p.items, |p.items|);
  }

  /** Forgetting keys, as the window moves on, loses nothing that the account needs. */
  lemma ForgetKeepsInv(norm: string -> string, lines: seq<string>, n: nat, p: Progress, seen: set<string>)
    requires Inv(norm, lines, n, p) && seen <= p.seen
    ensures Inv(norm, lines, n, p.(seen := seen))
  {
  }

  lemma StepKeepsInv(norm: string -> string, lines: seq<string>, n: nat, p: Progress, q: Progress)
    requires n < |lines| && Inv(norm, lines, n, p) && q == StepLine(norm, lines, n, p)
    ensures Inv(norm, lines, n + 1, q)
  {
    var key := norm(lines[n]);
    if |key| >= MIN_LENGTH && key in p.seen {
      DropKeepsInv(norm, lines, n, p);
    } else {
      KeepKeepsInv(norm, lines, n, p);
      ForgetKeepsInv(norm, lines, n + 1, Keep(p, lines[n], key), q.seen);
    }
  }

  lemma StartInv(norm: string -> string, lines: seq<string>)
    ensures Inv(norm, lines, 0, Progress([], {}, 0))
  {
  }

  lemma {:induction false} StepLinesInv(norm: string -> string, lines: seq<string>, n: nat)
    requires n <= |lines|
    ensures Inv(norm, lines, n, StepLines(norm, lines, n))
  {
    if n == 0 {
      StartInv(norm, lines);
    } else {
      StepLinesInv(norm, lines, n - 1);
      StepKeepsInv(norm, lines, n - 1, StepLines(norm, lines, n - 1), StepLines(norm, lines, n));
    }
  }

  /** For every input: kept lines are verbatim and in order, each marker stands for one maximal run of
      dropped lines and states its length, kept plus omitted is the input length, and every dropped line
      is like a line kept before it. */
  lemma DedupAccounts(norm: string -> string, lines: seq<string>)
    ensures TrueItems(norm, lines, Dedup(norm, lines))
    ensures Covered(Dedup(norm, lines)) == |lines|
  {
    StepLinesInv(norm, lines, |lines|);
    FlushKeepsInv(norm, lines, |lines|, StepLines(norm, lines, |lines|));
  }

  /** Every line below the point the items reach is kept, or one like it is. */
  lemma {:induction false} CoveredIsKept(norm: string -> string, lines: seq<string>, items: seq<Item>, k: nat, x: nat)
    requires TrueItems(norm, lines, items) && k <= |items| && x < Covered(items[..k]) && x < |lines|
    ensures HasKey(norm, items, norm(lines[x]))
    decreases k
  {
    if k > 0 {
      assert items[..k][..k - 1] == items[..k - 1];
      if x < Covered(items[..k - 1]) {
        CoveredIsKept(norm, lines, items, k - 1, x);
      } else {
        assert TrueItem(norm, lines, items, k - 1);
        if items[k - 1].Omitted? { assert LikeKept(norm, lines[x], items, k - 1); }
      }
    }
  }

  /** Nothing distinct is lost: every input line, up to trimming and case, is still there. */
  lemma NothingDistinctLost(norm: string -> string, lines: seq<string>, x: nat)
    requires x < |lines|
    ensures HasKey(norm, Dedup(norm, lines), norm(lines[x]))
  {
    DedupAccounts(norm, lines);
    var items := Dedup(norm, lines);
    assert items[..|items|] == items;
    CoveredIsKept(norm, lines, items, |items|, x);
  }
}
