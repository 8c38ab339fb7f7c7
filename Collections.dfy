/**
 * The array and Set idioms the handlers use: `Array.from(new Set(xs))`, `xs.filter(c => c !== x)`,
 * copying a Set and adding or deleting one element, and `xs.slice(0, n)`.
 */
module Collections {

  /** No value occurs twice. */
  predicate NoDup<T(==)>(xs: seq<T>) {
    forall i, j :: 0 <= i < j < |xs| ==> xs[i] != xs[j]
  }

  /**
   * `Array.from(new Set(xs))`: each value once, at the place of its first occurrence
   * (a JavaScript Set iterates in insertion order).
   */
  function Dedup<T(==,!new)>(xs: seq<T>): (r: seq<T>)
    ensures NoDup(r)
    ensures forall x :: x in r <==> x in xs
    ensures NoDup(xs) ==> r == xs
    ensures |r| <= |xs|
  {
    if xs == [] then []
    else
      var init := xs[..|xs| - 1];
      var last := xs[|xs| - 1];
      assert xs == init + [last];
      var r := Dedup(init);
      if last in r then r else r + [last]
  }

  /**
   * Deduplication works element by element in insertion order: a value appended to the
   * input is appended to the output unless it was already there.
   */
  lemma {:induction false} DedupSnoc<T(!new)>(xs: seq<T>, y: T)
    ensures Dedup(xs + [y]) == if y in xs then Dedup(xs) else Dedup(xs) + [y]
  {
    assert (xs + [y])[..|xs + [y]| - 1] == xs;
  }

  /** In a sequence without repeats, a member occurs exactly once. */
  lemma {:induction false} OccursOnce<T>(xs: seq<T>, x: T)
    requires NoDup(xs) && x in xs
    ensures multiset(xs)[x] == 1
  {
    assert xs == [xs[0]] + xs[1..];
    if xs[0] == x {
      assert x !in xs[1..] by {
        forall k | 1 <= k < |xs| ensures xs[k] != x { }
      }
    } else {
      OccursOnce(xs[1..], x);
    }
  }

  /** `xs.filter(c => c !== x)`: every occurrence of `x` removed, the rest kept in order. */
  function RemoveAll<T(==,!new)>(xs: seq<T>, x: T): (r: seq<T>)
    ensures forall y :: y in r <==> y in xs && y != x
    ensures |r| == |xs| - multiset(xs)[x]
    ensures x !in xs ==> r == xs
    ensures NoDup(xs) ==> NoDup(r)
  {
    if xs == [] then []
    else
      assert xs == [xs[0]] + xs[1..];
      NoDupTail(xs);
      if xs[0] == x then RemoveAll(xs[1..], x) else [xs[0]] + RemoveAll(xs[1..], x)
  }

  /** Without repeats, the head is not in the tail and the tail has no repeats. */
  lemma NoDupTail<T>(xs: seq<T>)
    requires xs != []
    ensures NoDup(xs) ==> NoDup(xs[1..]) && xs[0] !in xs[1..]
  {
    if NoDup(xs) {
      forall k | 0 <= k < |xs| - 1 ensures xs[1..][k] != xs[0] {
        assert xs[1..][k] == xs[k + 1];
      }
    }
  }

  /** Concatenation is associative. */
  lemma ConcatAssoc<T>(a: seq<T>, b: seq<T>, c: seq<T>)
    ensures a + (b + c) == (a + b) + c
  {
  }

  /** Filtering a sequence filters its head, then its tail. */
  lemma RemoveAllCons<T(!new)>(h: T, t: seq<T>, x: T)
    ensures RemoveAll([h] + t, x) == (if h == x then [] else [h]) + RemoveAll(t, x)
  {
    assert ([h] + t)[0] == h && ([h] + t)[1..] == t;
  }

  /** Filtering a concatenation filters each part: the survivors keep their order. */
  lemma {:induction false} RemoveAllAppend<T(!new)>(a: seq<T>, b: seq<T>, x: T)
    ensures RemoveAll(a + b, x) == RemoveAll(a, x) + RemoveAll(b, x)
  {
    if a != [] {
      var head: seq<T> := if a[0] == x then [] else [a[0]];
      assert a == [a[0]] + a[1..] && a + b == [a[0]] + (a[1..] + b);
      RemoveAllCons(a[0], a[1..] + b, x);
      RemoveAllCons(a[0], a[1..], x);
      RemoveAllAppend(a[1..], b, x);
      ConcatAssoc(head, RemoveAll(a[1..], x), RemoveAll(b, x));
    } else {
      assert a + b == b;
    }
  }

  /** A copy of the Set with `x` deleted if present and added otherwise. */
  function Toggle<T(!new)>(s: set<T>, x: T): (r: set<T>)
    ensures x in r <==> x !in s
    ensures forall y :: y != x ==> (y in r <==> y in s)
  {
    if x in s then s - {x} else s + {x}
  }

  /** Toggling the same value twice restores the Set. */
  lemma ToggleTwice<T(!new)>(s: set<T>, x: T)
    ensures Toggle(Toggle(s, x), x) == s
  {
  }

  /** `xs.slice(0, n)`: the first `n` elements, or all of them when there are fewer. */
  function Take<T>(xs: seq<T>, n: nat): (r: seq<T>)
    ensures |r| == if |xs| < n then |xs| else n
    ensures r == xs[..|r|]
  {
    if |xs| <= n then xs else xs[..n]
  }
}
