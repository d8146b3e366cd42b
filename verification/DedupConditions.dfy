/** Exactly which lines the deduplication leaves out (src/compress.rs:396-442), in terms of positions. */
module DedupConditions {
  import opened Text
  import opened TextLayout
  import opened LineDedup

  /** The positions of the lines that the items keep. */
  function KeptLines(items: seq<Item>): set<nat>
  {
    if items == [] then {}
    else
      var before := items[..|items| - 1];
      KeptLines(before) + if items[|items| - 1].Kept? then {Covered(before)} else {}
  }

  /** Before line n, line y is still remembered: it was kept, and no line kept since then, itself included, is
      the tenth after a line like it. Only lines of 15 characters or more push others out. */
  ghost predicate Remembered(norm: string -> string, lines: seq<string>, kept: set<nat>, y: nat, n: nat)
  {
    && y in kept && y < n <= |lines|
    && forall z :: y <= z < n && z in kept && z >= 10 && |norm(lines[z])| >= 15 ==>
         norm(lines[z - 10]) != norm(lines[y])
  }

  /** A line of 15 characters or more that is like one still remembered. */
  ghost predicate Repeats(norm: string -> string, lines: seq<string>, kept: set<nat>, x: nat)
    requires x < |lines|
  {
    |norm(lines[x])| >= 15
    && exists y: nat :: Remembered(norm, lines, kept, y, x) && norm(lines[y]) == norm(lines[x])
  }

  ghost predicate SeenLine(norm: string -> string, lines: seq<string>, kept: set<nat>, n: nat, key: string)
  {
    exists y: nat :: Remembered(norm, lines, kept, y, n) && norm(lines[y]) == key
  }

  // ----- what each line does -----

  /** The first n lines were kept or left out as the condition says, and exactly the remembered keys are seen. */
  ghost predicate Decided(norm: string -> string, lines: seq<string>, n: nat, p: Progress)
  {
    && n <= |lines| && Covered(p.items) + p.dups == n
    && Below(KeptLines(p.items), n)
    && AllDecided(norm, lines, KeptLines(p.items), n)
    && SeenExactly(norm, lines, KeptLines(p.items), n, p.seen)
  }

  ghost predicate Below(kept: set<nat>, n: nat)
  {
    forall x :: x in kept ==> x < n
  }

  ghost predicate AllDecided(norm: string -> string, lines: seq<string>, kept: set<nat>, n: nat)
    requires n <= |lines|
  {
    forall x :: 0 <= x < n ==> DecidedAt(norm, lines, kept, x)
  }

  ghost predicate DecidedAt(norm: string -> string, lines: seq<string>, kept: set<nat>, x: nat)
    requires x < |lines|
  {
    x !in kept <==> Repeats(norm, lines, kept, x)
  }

  ghost predicate SeenExactly(norm: string -> string, lines: seq<string>, kept: set<nat>, n: nat, seen: set<string>)
  {
    forall key :: SeenRight(norm, lines, kept, n, seen, key)
  }

  ghost predicate SeenRight(norm: string -> string, lines: seq<string>, kept: set<nat>, n: nat, seen: set<string>,
                            key: string)
  {
    |key| >= 15 ==> (key in seen <==> SeenLine(norm, lines, kept, n, key))
  }

  lemma FlushKeeps(p: Progress)
    ensures KeptLines(FlushDups(p).items) == KeptLines(p.items)
    ensures Covered(FlushDups(p).items) == Covered(p.items) + p.dups
  {
    if p.dups > 0 {
      var all := p.items + [Omitted(p.dups)];
      assert all[..|p.items|] == p.items;
    }
  }

  lemma KeepAdds(p: Progress, line: string, key: string)
    ensures var q := Keep(p, line, key);
            && KeptLines(q.items) == KeptLines(p.items) + {Covered(p.items) + p.dups}
            && Covered(q.items) == Covered(p.items) + p.dups + 1
  {
    FlushKeeps(p);
    var items := FlushDups(p).items;
    assert (items + [Kept(line)])[..|items|] == items;
  }

  /** Whether a line is remembered depends only on what came before. */
  lemma RememberedBefore(norm: string -> string, lines: seq<string>, kept: set<nat>, y: nat, n: nat, m: nat)
    requires n <= m
    ensures Remembered(norm, lines, kept + {m}, y, n) <==> Remembered(norm, lines, kept, y, n)
  {
  }

  lemma RepeatsBefore(norm: string -> string, lines: seq<string>, kept: set<nat>, x: nat, m: nat)
    requires x <= m && x < |lines|
    ensures Repeats(norm, lines, kept + {m}, x) <==> Repeats(norm, lines, kept, x)
  {
    forall y: nat ensures Remembered(norm, lines, kept + {m}, y, x) <==> Remembered(norm, lines, kept, y, x) {
      RememberedBefore(norm, lines, kept, y, x, m);
    }
  }

  /** A line left out changes nothing that is remembered. */
  lemma DropRemembers(norm: string -> string, lines: seq<string>, kept: set<nat>, n: nat, key: string)
    requires n < |lines| && n !in kept
    ensures SeenLine(norm, lines, kept, n + 1, key) <==> SeenLine(norm, lines, kept, n, key)
  {
    forall y: nat ensures Remembered(norm, lines, kept, y, n + 1) <==> Remembered(norm, lines, kept, y, n) {
      if Remembered(norm, lines, kept, y, n) {
        forall z | y <= z < n + 1 && z in kept && z >= 10 && |norm(lines[z])| >= 15
          ensures norm(lines[z - 10]) != norm(lines[y])
        {
          assert z < n;
        }
      }
    }
  }

  /** A line kept is remembered, and pushes out what is like the tenth line before it. */
  lemma KeepRemembers(norm: string -> string, lines: seq<string>, kept: set<nat>, n: nat, key: string)
    requires n < |lines| && Below(kept, n)
    ensures var pushes := n >= 10 && |norm(lines[n])| >= 15 && norm(lines[n - 10]) == key;
            SeenLine(norm, lines, kept + {n}, n + 1, key) <==>
            !pushes && (SeenLine(norm, lines, kept, n, key) || norm(lines[n]) == key)
  {
    var pushes := n >= 10 && |norm(lines[n])| >= 15 && norm(lines[n - 10]) == key;
    if SeenLine(norm, lines, kept + {n}, n + 1, key) { SeenAfterKept(norm, lines, kept, n, key); }
    if !pushes && norm(lines[n]) == key { assert Remembered(norm, lines, kept + {n}, n, n + 1); }
    if !pushes && SeenLine(norm, lines, kept, n, key) { StillSeen(norm, lines, kept, n, key); }
  }

  lemma SeenAfterKept(norm: string -> string, lines: seq<string>, kept: set<nat>, n: nat, key: string)
    requires n < |lines| && SeenLine(norm, lines, kept + {n}, n + 1, key)
    ensures !(n >= 10 && |norm(lines[n])| >= 15 && norm(lines[n - 10]) == key)
    ensures SeenLine(norm, lines, kept, n, key) || norm(lines[n]) == key
  {
    var y: nat :| Remembered(norm, lines, kept + {n}, y, n + 1) && norm(lines[y]) == key;
    if y < n { assert Remembered(norm, lines, kept, y, n); }
  }

  lemma StillSeen(norm: string -> string, lines: seq<string>, kept: set<nat>, n: nat, key: string)
    requires n < |lines| && SeenLine(norm, lines, kept, n, key)
    requires !(n >= 10 && |norm(lines[n])| >= 15 && norm(lines[n - 10]) == key)
    ensures SeenLine(norm, lines, kept + {n}, n + 1, key)
  {
    var y: nat :| Remembered(norm, lines, kept, y, n) && norm(lines[y]) == key;
    assert Remembered(norm, lines, kept + {n}, y, n + 1);
  }

  lemma DropDecides(norm: string -> string, lines: seq<string>, n: nat, p: Progress)
    requires Decided(norm, lines, n, p) && n < |lines|
    requires |norm(lines[n])| >= 15 && norm(lines[n]) in p.seen
    ensures Decided(norm, lines, n + 1, p.(dups := p.dups + 1))
  {
    var kept := KeptLines(p.items);
    assert SeenRight(norm, lines, kept, n, p.seen, norm(lines[n]));
    assert Repeats(norm, lines, kept, n);
    assert DecidedAt(norm, lines, kept, n);
    var next := n + 1;
    forall key ensures SeenRight(norm, lines, kept, next, p.seen, key) {
      assert SeenRight(norm, lines, kept, n, p.seen, key);
      DropRemembers(norm, lines, kept, n, key);
    }
  }

  lemma KeepAllDecided(norm: string -> string, lines: seq<string>, kept: set<nat>, n: nat)
    requires n < |lines| && AllDecided(norm, lines, kept, n) && !Repeats(norm, lines, kept, n)
    ensures AllDecided(norm, lines, kept + {n}, n + 1)
  {
    var all := kept + {n};
    forall x | 0 <= x < n + 1 ensures DecidedAt(norm, lines, all, x) {
      RepeatsBefore(norm, lines, kept, x, n);
      assert x < n ==> DecidedAt(norm, lines, kept, x);
    }
  }

  lemma KeepSeenExactly(norm: string -> string, lines: seq<string>, kept: set<nat>, n: nat, seen: set<string>,
                        seen': set<string>)
    requires n < |lines| && SeenExactly(norm, lines, kept, n, seen) && Below(kept, n)
    requires seen' == (seen + {norm(lines[n])}) - if |norm(lines[n])| >= 15 && n >= 10 then {norm(lines[n - 10])} else {}
    ensures SeenExactly(norm, lines, kept + {n}, n + 1, seen')
  {
    var (all, next) := (kept + {n}, n + 1);
    forall key ensures SeenRight(norm, lines, all, next, seen', key) {
      assert SeenRight(norm, lines, kept, n, seen, key);
      KeepRemembers(norm, lines, kept, n, key);
    }
  }

  lemma KeepDecides(norm: string -> string, lines: seq<string>, n: nat, p: Progress, q: Progress)
    requires Decided(norm, lines, n, p) && n < |lines|
    requires |norm(lines[n])| < 15 || norm(lines[n]) !in p.seen
    requires q.items == Keep(p, lines[n], norm(lines[n])).items && q.dups == 0
    requires q.seen == (p.seen + {norm(lines[n])}) - if |norm(lines[n])| >= 15 && n >= 10 then {norm(lines[n - 10])} else {}
    ensures Decided(norm, lines, n + 1, q)
  {
    KeepAdds(p, lines[n], norm(lines[n]));
    KeepSetDecides(norm, lines, KeptLines(p.items), n, p.seen, q.seen);
  }

  lemma KeepSetDecides(norm: string -> string, lines: seq<string>, kept: set<nat>, n: nat, seen: set<string>,
                       seen': set<string>)
    requires n < |lines| && Below(kept, n) && AllDecided(norm, lines, kept, n) && SeenExactly(norm, lines, kept, n, seen)
    requires |norm(lines[n])| < 15 || norm(lines[n]) !in seen
    requires seen' == (seen + {norm(lines[n])}) - if |norm(lines[n])| >= 15 && n >= 10 then {norm(lines[n - 10])} else {}
    ensures Below(kept + {n}, n + 1) && AllDecided(norm, lines, kept + {n}, n + 1)
    ensures SeenExactly(norm, lines, kept + {n}, n + 1, seen')
  {
    NotRepeated(norm, lines, kept, n, seen);
    KeepAllDecided(norm, lines, kept, n);
    KeepSeenExactly(norm, lines, kept, n, seen, seen');
  }

  lemma NotRepeated(norm: string -> string, lines: seq<string>, kept: set<nat>, n: nat, seen: set<string>)
    requires n < |lines| && SeenExactly(norm, lines, kept, n, seen)
    requires |norm(lines[n])| < 15 || norm(lines[n]) !in seen
    ensures !Repeats(norm, lines, kept, n)
  {
    assert SeenRight(norm, lines, kept, n, seen, norm(lines[n]));
    if Repeats(norm, lines, kept, n) { assert SeenLine(norm, lines, kept, n, norm(lines[n])); }
  }

  lemma {:induction false} LinesDecided(norm: string -> string, lines: seq<string>, n: nat, p: Progress)
    requires n <= |lines| && p == StepLines(norm, lines, n)
    ensures Decided(norm, lines, n, p)
  {
    if n == 0 {
      StartDecided(norm, lines);
    } else {
      LinesDecided(norm, lines, n - 1, StepLines(norm, lines, n - 1));
      StepDecides(norm, lines, n - 1, StepLines(norm, lines, n - 1), n, p);
    }
  }

  lemma StartDecided(norm: string -> string, lines: seq<string>)
    ensures Decided(norm, lines, 0, Progress([], {}, 0))
  {
  }

  lemma StepDecides(norm: string -> string, lines: seq<string>, n: nat, p: Progress, next: nat, q: Progress)
    requires n < |lines| && Decided(norm, lines, n, p) && q == StepLine(norm, lines, n, p) && next == n + 1
    ensures Decided(norm, lines, next, q)
  {
    if |norm(lines[n])| >= 15 && norm(lines[n]) in p.seen {
      DropDecides(norm, lines, n, p);
    } else {
      KeepDecides(norm, lines, n, p, q);
    }
  }

  /** Over every input, a line is left out if and only if it has at least 15 characters and is like a kept
      line before it that is still remembered. */
  lemma LeftOutExactly(norm: string -> string, lines: seq<string>, x: nat)
    requires x < |lines|
    ensures var kept := KeptLines(Dedup(norm, lines));
            x !in kept <==> Repeats(norm, lines, kept, x)
  {
    LinesDecided(norm, lines, |lines|, StepLines(norm, lines, |lines|));
    FlushKeeps(StepLines(norm, lines, |lines|));
    assert DecidedAt(norm, lines, KeptLines(StepLines(norm, lines, |lines|).items), x);
  }

  // ----- what is printed -----

  /** A kept line is printed as it is; a count says how many lines were left out. */
  predicate PrintedAs(i: Item, line: string)
  {
    match i
    case Kept(kept) => line == kept
    case Omitted(n) => line == "  [... " + Dec(n) + " similar lines omitted]"
  }

  ghost predicate PrintsItems(items: seq<Item>, output: string)
  {
    exists printed: seq<string> :: AllPrinted(items, printed) && LaidOut(output, printed, "\n")
  }

  predicate AllPrinted(items: seq<Item>, printed: seq<string>)
  {
    |printed| == |items| && forall i :: 0 <= i < |items| ==> PrintedAs(items[i], printed[i])
  }

  /** What deduplication prints: one line for every item, with line breaks between them and nothing else. */
  lemma ItemsPrinted(items: seq<Item>)
    ensures PrintsItems(items, Join(RenderAll(items), "\n"))
  {
    JoinLaysOut(RenderAll(items), "\n");
    assert AllPrinted(items, RenderAll(items));
  }
}
