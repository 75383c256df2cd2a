/** Sequences read as JavaScript `Set`s and arrays: insertion-ordered
    collections without repetition, and the counting facts that make the
    searches over "not yet visited" paths and ids terminate. */
module Sequences {

  predicate NoDup<T(==,!new)>(xs: seq<T>)
  {
    forall i, j :: 0 <= i < j < |xs| ==> xs[i] != xs[j]
  }

  /** `set.add(x)` on a set kept in insertion order. */
  function AddNew<T(==,!new)>(acc: seq<T>, x: T): (r: seq<T>)
    ensures NoDup(acc) ==> NoDup(r)
    ensures forall y :: y in r <==> y in acc || y == x
  {
    if x in acc then acc else acc + [x]
  }

  /** `[...new Set(xs)]` with `acc` already added: first occurrences, in order. */
  function DedupInto<T(==,!new)>(acc: seq<T>, xs: seq<T>): (r: seq<T>)
    decreases |xs|
  {
    if |xs| == 0 then acc else DedupInto(AddNew(acc, xs[0]), xs[1..])
  }

  function Dedup<T(==,!new)>(xs: seq<T>): seq<T>
  {
    DedupInto([], xs)
  }

  lemma {:induction false} DedupIntoFacts<T(!new)>(acc: seq<T>, xs: seq<T>)
    requires NoDup(acc)
    ensures NoDup(DedupInto(acc, xs))
    ensures forall y :: y in DedupInto(acc, xs) <==> y in acc || y in xs
    ensures |DedupInto(acc, xs)| >= |acc| && DedupInto(acc, xs)[..|acc|] == acc
    decreases |xs|
  {
    if |xs| > 0 {
      var acc' := AddNew(acc, xs[0]);
      DedupIntoFacts(acc', xs[1..]);
      assert forall y :: y in xs <==> y == xs[0] || y in xs[1..] by {
        assert xs == [xs[0]] + xs[1..];
      }
      assert acc'[..|acc|] == acc;
    }
  }

  /** The duplicate-free `[...new Set(xs)]` holds exactly the elements of `xs`,
      and keeps `xs` itself when it had no repetition. */
  lemma DedupFacts<T(!new)>(xs: seq<T>)
    ensures NoDup(Dedup(xs))
    ensures forall y :: y in Dedup(xs) <==> y in xs
  {
    DedupIntoFacts([], xs);
  }

  /** Adding two runs one after the other adds their concatenation. */
  lemma {:induction false} DedupIntoAppend<T(!new)>(acc: seq<T>, xs: seq<T>, ys: seq<T>)
    ensures DedupInto(acc, xs + ys) == DedupInto(DedupInto(acc, xs), ys)
    decreases |xs|
  {
    if |xs| > 0 {
      assert (xs + ys)[0] == xs[0] && (xs + ys)[1..] == xs[1..] + ys;
      DedupIntoAppend(AddNew(acc, xs[0]), xs[1..], ys);
    } else {
      assert xs + ys == ys;
    }
  }

  lemma DedupIntoSingle<T(!new)>(acc: seq<T>, x: T)
    ensures DedupInto(acc, [x]) == AddNew(acc, x)
  {
    assert [x][1..] == [];
  }

  lemma {:induction false} DedupIntoOfNoDup<T(!new)>(acc: seq<T>, xs: seq<T>)
    requires NoDup(acc + xs)
    ensures DedupInto(acc, xs) == acc + xs
    decreases |xs|
  {
    if |xs| > 0 {
      forall i | 0 <= i < |acc|
        ensures acc[i] != xs[0]
      {
        assert (acc + xs)[i] == acc[i];
        assert (acc + xs)[|acc|] == xs[0];
      }
      assert acc + [xs[0]] + xs[1..] == acc + xs;
      DedupIntoOfNoDup(acc + [xs[0]], xs[1..]);
    }
  }

  lemma DedupOfNoDup<T(!new)>(xs: seq<T>)
    requires NoDup(xs)
    ensures Dedup(xs) == xs
  {
    assert [] + xs == xs;
    DedupIntoOfNoDup([], xs);
  }

  // ---------------------------------------------------------------------------
  // counting what is left to visit
  // ---------------------------------------------------------------------------

  function Remaining(universe: set<string>, seen: set<string>): nat
  {
    |universe - seen|
  }

  lemma {:induction false} SubsetCard(a: set<string>, b: set<string>)
    requires a <= b
    ensures |a| <= |b|
    decreases |b|
  {
    if a != {} {
      var x :| x in a;
      SubsetCard(a - {x}, b - {x});
    }
  }

  lemma SeeMore(universe: set<string>, seen: set<string>, seen': set<string>)
    requires seen <= seen'
    ensures Remaining(universe, seen') <= Remaining(universe, seen)
  {
    SubsetCard(universe - seen', universe - seen);
  }

  lemma SeeNew(universe: set<string>, seen: set<string>, x: string)
    requires x in universe && x !in seen
    ensures Remaining(universe, seen + {x}) < Remaining(universe, seen)
  {
    assert universe - seen == (universe - (seen + {x})) + {x};
  }

  /** Where the elements of a three-way concatenation come from. */
  lemma Concat3Index<T>(a: seq<T>, b: seq<T>, c: seq<T>)
    ensures |a + b + c| == |a| + |b| + |c|
    ensures forall k :: 0 <= k < |a| ==> (a + b + c)[k] == a[k]
    ensures forall k :: |a| <= k < |a| + |b| ==> (a + b + c)[k] == b[k - |a|]
    ensures forall k :: |a| + |b| <= k < |a| + |b| + |c| ==> (a + b + c)[k] == c[k - |a| - |b|]
  {
  }
}
