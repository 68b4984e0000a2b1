/** Generic sequence helpers: the `filter`, `map`, `slice` and `join`-free
    parts of the JavaScript array API that the rest of the model relies on,
    with the properties every caller needs (order preservation, membership). */
module Lists {

  /** `xs.filter(p)`: the elements of `xs` satisfying `p`, in their order. */
  function Filter<T(==)>(xs: seq<T>, p: T -> bool): (r: seq<T>)
    ensures |r| <= |xs|
    ensures forall x :: x in r ==> x in xs && p(x)
    ensures forall x :: x in xs && p(x) ==> x in r
  {
    if xs == [] then []
    else if p(xs[0]) then [xs[0]] + Filter(xs[1..], p)
    else Filter(xs[1..], p)
  }

  /** `xs.map(f)`. */
  function Map<T, U>(xs: seq<T>, f: T -> U): (r: seq<U>)
    ensures |r| == |xs|
    ensures forall i :: 0 <= i < |xs| ==> r[i] == f(xs[i])
  {
    if xs == [] then [] else [f(xs[0])] + Map(xs[1..], f)
  }

  /** Mapping distributes over concatenation. */
  lemma MapAppend<T, U>(a: seq<T>, b: seq<T>, f: T -> U)
    ensures Map(a + b, f) == Map(a, f) + Map(b, f)
  {
    assert forall i :: 0 <= i < |a + b| ==> Map(a + b, f)[i] == (Map(a, f) + Map(b, f))[i];
  }

  /** The concatenated images of three elements. */
  lemma ConcatMapThree<T, U>(a: T, b: T, c: T, f: T -> seq<U>)
    ensures Concat(Map([a, b, c], f)) == f(a) + f(b) + f(c)
  {
    var m := Map([a, b, c], f);
    assert m == [f(a), f(b), f(c)];
    assert m[1..] == [f(b), f(c)] && m[1..][1..] == [f(c)] && m[1..][1..][1..] == [];
    assert Concat(m[1..][1..]) == f(c);
    assert Concat(m[1..]) == f(b) + f(c);
  }

  /** The concatenated image of one element. */
  lemma ConcatMapOne<T, U>(a: T, f: T -> seq<U>)
    ensures Concat(Map([a], f)) == f(a)
  {
    var m := Map([a], f);
    assert m == [f(a)];
    assert m[1..] == [];
  }

  /** The image of a member is a member of the image. */
  lemma {:induction false} MapKeepsMember<T, U>(xs: seq<T>, f: T -> U, x: T)
    requires x in xs
    ensures f(x) in Map(xs, f)
  {
    if xs[0] != x {
      MapKeepsMember(xs[1..], f, x);
    }
  }

  /** `xs.slice(0, n)` for a non-negative `n`. */
  function Take<T>(xs: seq<T>, n: nat): (r: seq<T>)
    ensures |r| == if n < |xs| then n else |xs|
    ensures r <= xs
  {
    if n < |xs| then xs[..n] else xs
  }

  /** `a` can be obtained from `b` by deleting elements: order is kept. */
  predicate IsSubsequence<T(==)>(a: seq<T>, b: seq<T>)
  {
    if a == [] then true
    else if b == [] then false
    else if a[0] == b[0] then IsSubsequence(a[1..], b[1..])
    else IsSubsequence(a, b[1..])
  }

  lemma {:induction false} FilterIsSubsequence<T>(xs: seq<T>, p: T -> bool)
    ensures IsSubsequence(Filter(xs, p), xs)
  {
    if xs != [] {
      FilterIsSubsequence(xs[1..], p);
      if !p(xs[0]) {
        SubsequenceOfTail(Filter(xs[1..], p), xs);
      }
    }
  }

  /** Every list is a subsequence of itself. */
  lemma {:induction false} SubsequenceRefl<T>(xs: seq<T>)
    ensures IsSubsequence(xs, xs)
    decreases |xs|
  {
    if xs != [] {
      SubsequenceRefl(xs[1..]);
    }
  }

  /** Filtering a concatenation filters each part. */
  lemma {:induction false} FilterConcat<T>(a: seq<T>, b: seq<T>, p: T -> bool)
    ensures Filter(a + b, p) == Filter(a, p) + Filter(b, p)
    decreases |a|
  {
    if a == [] {
      assert a + b == b;
    } else {
      assert (a + b)[1..] == a[1..] + b;
      FilterConcat(a[1..], b, p);
    }
  }

  /** A subsequence of the tail is a subsequence of the whole. */
  lemma {:induction false} SubsequenceOfTail<T>(a: seq<T>, b: seq<T>)
    requires b != [] && IsSubsequence(a, b[1..])
    ensures IsSubsequence(a, b)
    decreases |b|, 0
  {
    if a != [] && a[0] == b[0] {
      SubsequenceDropHead(a, b[1..]);
    }
  }

  /** Dropping the first element of a subsequence keeps it a subsequence. */
  lemma {:induction false} SubsequenceDropHead<T>(a: seq<T>, c: seq<T>)
    requires a != [] && IsSubsequence(a, c)
    ensures IsSubsequence(a[1..], c)
    decreases |c|, 1
  {
    if a[0] == c[0] {
      SubsequenceOfTail(a[1..], c);
    } else {
      SubsequenceDropHead(a, c[1..]);
      SubsequenceOfTail(a[1..], c);
    }
  }

  /** A filter whose predicate rejects everything yields the empty list,
      one that accepts everything yields the list itself. */
  lemma {:induction false} FilterNone<T>(xs: seq<T>, p: T -> bool)
    requires forall x :: x in xs ==> !p(x)
    ensures Filter(xs, p) == []
  {
    if xs != [] { FilterNone(xs[1..], p); }
  }

  lemma {:induction false} FilterAll<T>(xs: seq<T>, p: T -> bool)
    requires forall x :: x in xs ==> p(x)
    ensures Filter(xs, p) == xs
  {
    if xs != [] { FilterAll(xs[1..], p); }
  }

  /** Two filters with mutually exclusive predicates select disjoint parts of
      the list: together they never hold more elements than the list. */
  lemma {:induction false} FilterDisjointCount<T>(xs: seq<T>, p: T -> bool, q: T -> bool)
    requires forall x :: x in xs ==> !(p(x) && q(x))
    ensures |Filter(xs, p)| + |Filter(xs, q)| <= |xs|
  {
    if xs != [] { FilterDisjointCount(xs[1..], p, q); }
  }

  /** Concatenation of a list of sequences (`parts.join("")`). */
  function Concat<T>(parts: seq<seq<T>>): (r: seq<T>)
    ensures parts == [] ==> r == []
  {
    if parts == [] then [] else parts[0] + Concat(parts[1..])
  }

  lemma {:induction false} ConcatAppend<T>(a: seq<seq<T>>, b: seq<seq<T>>)
    ensures Concat(a + b) == Concat(a) + Concat(b)
  {
    if a != [] {
      assert (a + b)[1..] == a[1..] + b;
      assert (a + b)[0] == a[0];
      ConcatAppend(a[1..], b);
    } else {
      assert a + b == b;
    }
  }

  /** The elements of `xs` with later repetitions removed: the insertion
      order of a JavaScript `Set` built from `xs`. */
  function Dedup<T(==)>(xs: seq<T>): (r: seq<T>)
  {
    DedupFrom({}, xs)
  }

  /** `Dedup` continued after the elements of `seen` have been met. */
  function DedupFrom<T(==)>(seen: set<T>, xs: seq<T>): (r: seq<T>)
    decreases |xs|
  {
    if xs == [] then []
    else if xs[0] in seen then DedupFrom(seen, xs[1..])
    else [xs[0]] + DedupFrom(seen + {xs[0]}, xs[1..])
  }

  /** No element occurs twice. */
  predicate NoDuplicates<T(==)>(xs: seq<T>)
  {
    forall i, j :: 0 <= i < j < |xs| ==> xs[i] != xs[j]
  }

  lemma {:induction false} DedupFromProperties<T>(seen: set<T>, xs: seq<T>)
    ensures var r := DedupFrom(seen, xs);
      && NoDuplicates(r)
      && (forall x :: x in r <==> x in xs && x !in seen)
      && IsSubsequence(r, xs)
    decreases |xs|
  {
    if xs != [] {
      var r := DedupFrom(seen, xs);
      if xs[0] in seen {
        DedupFromProperties(seen, xs[1..]);
        SubsequenceOfTail(r, xs);
      } else {
        var rest := DedupFrom(seen + {xs[0]}, xs[1..]);
        DedupFromProperties(seen + {xs[0]}, xs[1..]);
        assert r == [xs[0]] + rest;
        assert r[1..] == rest;
        forall i, j | 0 <= i < j < |r| ensures r[i] != r[j] {
          if i == 0 {
            assert r[j] == rest[j - 1];
            assert rest[j - 1] in rest;
          }
        }
      }
    }
  }

  /** Deduplication keeps first occurrences, drops repetitions, keeps order
      and keeps every element. */
  lemma DedupProperties<T>(xs: seq<T>)
    ensures NoDuplicates(Dedup(xs))
    ensures forall x :: x in Dedup(xs) <==> x in xs
    ensures IsSubsequence(Dedup(xs), xs)
  {
    DedupFromProperties({}, xs);
  }

  /** A list that already has no duplicates is its own deduplication. */
  lemma {:induction false} DedupOfDistinct<T>(seen: set<T>, xs: seq<T>)
    requires NoDuplicates(xs)
    requires forall x :: x in xs ==> x !in seen
    ensures DedupFrom(seen, xs) == xs
    decreases |xs|
  {
    if xs != [] {
      forall x | x in xs[1..] ensures x !in seen + {xs[0]} {
        var k :| 1 <= k < |xs| && xs[k] == x;
      }
      DedupOfDistinct(seen + {xs[0]}, xs[1..]);
    }
  }

  /** Deduplication is idempotent. */
  lemma DedupIdempotent<T>(xs: seq<T>)
    ensures Dedup(Dedup(xs)) == Dedup(xs)
  {
    DedupProperties(xs);
    DedupOfDistinct({}, Dedup(xs));
  }

  /** Appending one element to the walk of `DedupFrom`. */
  lemma {:induction false} DedupFromSnoc<T>(seen: set<T>, xs: seq<T>, x: T)
    ensures DedupFrom(seen, xs + [x]) ==
      DedupFrom(seen, xs) + (if x in seen || x in xs then [] else [x])
    decreases |xs|
  {
    if xs == [] {
      assert [x][1..] == [];
    } else {
      assert (xs + [x])[1..] == xs[1..] + [x];
      if xs[0] in seen {
        DedupFromSnoc(seen, xs[1..], x);
      } else {
        DedupFromSnoc(seen + {xs[0]}, xs[1..], x);
      }
    }
  }
}
