/** Concatenating what each element of a sequence contributes. */
module Lists {
  import opened Wrappers

  function FlatMap<T, U>(f: T -> seq<U>, xs: seq<T>): seq<U>
  {
    if xs == [] then [] else FlatMap(f, xs[..|xs| - 1]) + f(xs[|xs| - 1])
  }

  lemma Regroup<T>(x: seq<T>, y: seq<T>, z: seq<T>)
    ensures x + (y + z) == x + y + z
  {
  }

  lemma NoMore<T>(xs: seq<T>)
    ensures xs + [] == xs
  {
  }

  lemma Whole<T>(xs: seq<T>)
    ensures xs[..|xs|] == xs
  {
  }

  lemma HeadAndRest<T>(x: T, rest: seq<T>)
    ensures ([x] + rest)[0] == x && ([x] + rest)[1..] == rest
  {
  }

  lemma CutFirst<T>(a: seq<T>, b: seq<T>, n: nat)
    requires n <= |a|
    ensures (a + b)[..n] == a[..n] && (a + b)[n..] == a[n..] + b
  {
  }

  lemma FlatMapOne<T, U>(f: T -> seq<U>, x: T)
    ensures FlatMap(f, [x]) == f(x)
  {
    assert [x][..0] == [];
  }

  lemma FlatMapNext<T, U>(f: T -> seq<U>, xs: seq<T>, x: T)
    ensures FlatMap(f, xs + [x]) == FlatMap(f, xs) + f(x)
  {
    assert (xs + [x])[..|xs|] == xs;
  }

  lemma LastSlice<T>(xs: seq<T>, x: T, i: nat)
    requires i <= |xs|
    ensures (xs + [x])[i..|xs| + 1] == xs[i..|xs|] + [x]
  {
  }

  lemma {:induction false} FlatMapAppend<T, U>(f: T -> seq<U>, a: seq<T>, b: seq<T>)
    ensures FlatMap(f, a + b) == FlatMap(f, a) + FlatMap(f, b)
  {
    if b == [] {
      assert a + b == a;
    } else {
      var k := |b| - 1;
      assert (a + b)[..|a + b| - 1] == a + b[..k];
      FlatMapAppend(f, a, b[..k]);
    }
  }

  // ----- lists that a contribution leaves as they are -----

  ghost predicate AtMostOne<T(!new), U>(f: T -> seq<U>)
  {
    forall x :: |f(x)| <= 1
  }

  ghost predicate AllFixed<T>(f: T -> seq<T>, xs: seq<T>)
  {
    forall i :: 0 <= i < |xs| ==> f(xs[i]) == [xs[i]]
  }

  lemma {:induction false} FlatMapShort<T(!new), U>(f: T -> seq<U>, xs: seq<T>)
    requires AtMostOne(f)
    ensures |FlatMap(f, xs)| <= |xs|
  {
    if xs != [] {
      FlatMapShort(f, xs[..|xs| - 1]);
      assert |f(xs[|xs| - 1])| <= 1;
    }
  }

  /** The whole list stays as it is exactly when each element does. */
  lemma {:induction false} FlatMapFixed<T(!new)>(f: T -> seq<T>, xs: seq<T>)
    requires AtMostOne(f)
    ensures FlatMap(f, xs) == xs <==> AllFixed(f, xs)
  {
    if xs != [] {
      var k := |xs| - 1;
      FlatMapFixed(f, xs[..k]);
      FixedLast(f, xs);
      AppendFixed(FlatMap(f, xs[..k]), f(xs[k]), xs) by { FlatMapShort(f, xs[..k]); }
    }
  }

  lemma FixedLast<T>(f: T -> seq<T>, xs: seq<T>)
    requires xs != []
    ensures var k := |xs| - 1; AllFixed(f, xs) <==> AllFixed(f, xs[..k]) && f(xs[k]) == [xs[k]]
  {
    var k := |xs| - 1;
    assert forall i :: 0 <= i < k ==> xs[..k][i] == xs[i];
  }

  lemma AppendFixed<T>(a: seq<T>, b: seq<T>, xs: seq<T>)
    requires xs != [] && |a| < |xs| && |b| <= 1
    ensures a + b == xs <==> a == xs[..|xs| - 1] && b == [xs[|xs| - 1]]
  {
    var k := |xs| - 1;
    assert xs == xs[..k] + [xs[k]];
    if a + b == xs {
      assert |a| == k && |b| == 1;
      assert a == (a + b)[..k];
    }
  }

  // ----- where contributions come from -----

  /** These positions, in order, are exactly those of the elements that count. */
  ghost predicate Places<T(!new)>(counts: T -> bool, xs: seq<T>, at: seq<nat>)
  {
    && (forall i, j :: 0 <= i < j < |at| ==> at[i] < at[j])
    && (forall j :: 0 <= j < |at| ==> at[j] < |xs|)
    && (forall i :: 0 <= i < |xs| ==> (i in at <==> counts(xs[i])))
  }

  ghost predicate CountsOnce<T(!new), U>(f: T -> seq<U>, counts: T -> bool)
  {
    forall x :: |f(x)| == if counts(x) then 1 else 0
  }

  lemma {:induction false} FlatMapPlaces<T(!new), U>(f: T -> seq<U>, counts: T -> bool, xs: seq<T>) returns (at: seq<nat>)
    requires CountsOnce(f, counts)
    ensures Places(counts, xs, at) && ComeFrom(f, xs, at, FlatMap(f, xs))
  {
    if xs == [] {
      at := [];
    } else {
      var k := |xs| - 1;
      var before := FlatMapPlaces(f, counts, xs[..k]);
      assert |f(xs[k])| == if counts(xs[k]) then 1 else 0;
      at := if counts(xs[k]) then before + [k] else before;
      PlacesMore(counts, xs, before, at);
      ComeFromMore(f, xs, before, FlatMap(f, xs[..k]));
      NoMore(FlatMap(f, xs[..k]));
    }
  }

  /** What came of each of these positions, in order. */
  ghost predicate ComeFrom<T, U>(f: T -> seq<U>, xs: seq<T>, at: seq<nat>, ys: seq<U>)
  {
    |ys| == |at| && forall j :: 0 <= j < |at| ==> at[j] < |xs| && f(xs[at[j]]) == [ys[j]]
  }

  lemma ComeFromMore<T, U>(f: T -> seq<U>, xs: seq<T>, at: seq<nat>, ys: seq<U>)
    requires xs != [] && ComeFrom(f, xs[..|xs| - 1], at, ys)
    ensures ComeFrom(f, xs, at, ys)
    ensures |f(xs[|xs| - 1])| == 1 ==> ComeFrom(f, xs, at + [|xs| - 1], ys + f(xs[|xs| - 1]))
  {
    assert forall j :: 0 <= j < |at| ==> xs[..|xs| - 1][at[j]] == xs[at[j]];
  }

  lemma PlacesMore<T(!new)>(counts: T -> bool, xs: seq<T>, before: seq<nat>, at: seq<nat>)
    requires xs != [] && Places(counts, xs[..|xs| - 1], before)
    requires at == if counts(xs[|xs| - 1]) then before + [|xs| - 1] else before
    ensures Places(counts, xs, at)
  {
    var k := |xs| - 1;
    forall i | 0 <= i < |xs| ensures i in at <==> counts(xs[i]) {
      if i < k { assert xs[..k][i] == xs[i]; } else { assert k !in before; }
    }
  }

  /** The last element that counts, if any does. */
  function LastThat<T>(counts: T -> bool, xs: seq<T>): Option<T>
  {
    if xs == [] then None
    else if counts(xs[|xs| - 1]) then Some(xs[|xs| - 1])
    else LastThat(counts, xs[..|xs| - 1])
  }

  lemma {:induction false} LastThatIs<T>(counts: T -> bool, xs: seq<T>)
    ensures LastThat(counts, xs).None? ==> forall i :: 0 <= i < |xs| ==> !counts(xs[i])
    ensures LastThat(counts, xs).Some? ==>
              exists i :: 0 <= i < |xs| && xs[i] == LastThat(counts, xs).value && counts(xs[i])
                       && forall k :: i < k < |xs| ==> !counts(xs[k])
  {
    if xs != [] && !counts(xs[|xs| - 1]) {
      var k := |xs| - 1;
      LastThatIs(counts, xs[..k]);
      assert forall i :: 0 <= i < k ==> xs[..k][i] == xs[i];
      if LastThat(counts, xs[..k]).Some? {
        var i :| 0 <= i < k && xs[..k][i] == LastThat(counts, xs).value && counts(xs[..k][i])
              && forall n :: i < n < k ==> !counts(xs[..k][n]);
        assert xs[i] == LastThat(counts, xs).value;
        assert forall n :: i < n < k ==> xs[..k][n] == xs[n];
      }
    }
  }

  lemma LastNext<T>(counts: T -> bool, before: seq<T>, x: T)
    ensures LastThat(counts, before + [x]) == if counts(x) then Some(x) else LastThat(counts, before)
  {
    assert (before + [x])[..|before|] == before;
  }

  /** The parts one after another. */
  function Concat<T>(parts: seq<seq<T>>): seq<T>
  {
    if parts == [] then [] else Concat(parts[..|parts| - 1]) + parts[|parts| - 1]
  }

  lemma ConcatMore<T>(parts: seq<seq<T>>, part: seq<T>)
    ensures Concat(parts + [part]) == Concat(parts) + part
  {
    assert (parts + [part])[..|parts|] == parts;
  }
}
