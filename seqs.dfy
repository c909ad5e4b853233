/** Sequence vocabulary used by the specifications: concatenation of a list of
    lists, fan-out gathering, distinctness and integer ceiling division. */
module Seqs {
  import opened Outcomes

  function Flatten<T>(ss: seq<seq<T>>): seq<T>
    decreases |ss|
  {
    if ss == [] then [] else ss[0] + Flatten(ss[1..])
  }

  lemma {:induction false} FlattenAppend<T>(a: seq<seq<T>>, b: seq<seq<T>>)
    ensures Flatten(a + b) == Flatten(a) + Flatten(b)
    decreases |a|
  {
    if a == [] {
      assert a + b == b;
    } else {
      assert (a + b)[1..] == a[1..] + b;
      FlattenAppend(a[1..], b);
    }
  }

  lemma FlattenSingle<T>(s: seq<T>)
    ensures Flatten([s]) == s
  {
    assert [s][1..] == [];
  }

  /** The concatenation of the results of `f` over `xs`, in order, a failed
      result contributing nothing: the join of a fan-out whose tasks catch
      their own failures. */
  function Gather<A, T>(xs: seq<A>, f: A -> Response<seq<T>>): seq<T>
    decreases |xs|
  {
    if xs == [] then [] else ItemsOrEmpty(f(xs[0])) + Gather(xs[1..], f)
  }

  lemma {:induction false} GatherAppend<A, T>(xs: seq<A>, ys: seq<A>, f: A -> Response<seq<T>>)
    ensures Gather(xs + ys, f) == Gather(xs, f) + Gather(ys, f)
    decreases |xs|
  {
    if xs == [] {
      assert xs + ys == ys;
    } else {
      assert (xs + ys)[1..] == xs[1..] + ys;
      GatherAppend(xs[1..], ys, f);
    }
  }

  lemma GatherSnoc<A, T>(xs: seq<A>, x: A, f: A -> Response<seq<T>>)
    ensures Gather(xs + [x], f) == Gather(xs, f) + ItemsOrEmpty(f(x))
  {
    GatherAppend(xs, [x], f);
    assert [x][1..] == [];
  }

  predicate NoDuplicates<T(==)>(s: seq<T>) {
    forall i, j :: 0 <= i < j < |s| ==> s[i] != s[j]
  }

  function Elems<T>(s: seq<T>): set<T> {
    set x | x in s
  }

  lemma ElemsAppend<T>(a: seq<T>, b: seq<T>)
    ensures Elems(a + b) == Elems(a) + Elems(b)
  {
  }

  /** A list without repeats has as many elements as its set. */
  lemma {:induction false} NoDuplicatesCard<T>(s: seq<T>)
    requires NoDuplicates(s)
    ensures |Elems(s)| == |s|
    decreases |s|
  {
    if s != [] {
      var init := s[..|s| - 1];
      NoDuplicatesCard(init);
      assert Elems(s) == Elems(init) + {s[|s| - 1]};
      assert s[|s| - 1] !in Elems(init);
    }
  }

  /** `out` lists every distinct element of `source` exactly once. */
  predicate DistinctPermutation<T(==)>(out: seq<T>, source: seq<T>) {
    NoDuplicates(out) && Elems(out) == Elems(source)
  }

  /** `new ArrayList<>(set)` followed by `Collections.shuffle`: the elements of
      the set, each once, in an order the model leaves open. */
  method ShuffledList<T>(s: set<T>) returns (r: seq<T>)
    ensures NoDuplicates(r) && Elems(r) == s && |r| == |s|
  {
    r := [];
    var rest := s;
    while rest != {}
      invariant rest !! Elems(r) && rest + Elems(r) == s
      invariant NoDuplicates(r) && |Elems(r)| == |r|
      decreases |rest|
    {
      var x :| x in rest;
      assert Elems(r + [x]) == Elems(r) + {x};
      r := r + [x];
      rest := rest - {x};
    }
  }

  /** `ceil(n / d)` on naturals. */
  function CeilDiv(n: nat, d: nat): nat
    requires d > 0
  {
    (n + d - 1) / d
  }

  lemma MulAtLeast(a: int, n: int)
    requires a >= 1 && n > 0
    ensures a * n >= n
  {
  }

  lemma MulDistrib(q: int, n: int)
    ensures (q + 1) * n == q * n + n
  {
  }

  /** Euclidean division is determined by quotient and remainder. */
  lemma DivUnique(x: int, n: int, q: int, r: int)
    requires n > 0 && 0 <= r < n && x == q * n + r
    ensures x / n == q
  {
    var q2, r2 := x / n, x % n;
    assert x == q2 * n + r2;
    assert (q - q2) * n == r2 - r;
    if q > q2 {
      MulAtLeast(q - q2, n);
    } else if q < q2 {
      MulAtLeast(q2 - q, n);
    }
  }

  /** One more full run of `d` adds one to the ceiling. */
  lemma CeilDivStep(m: nat, d: nat)
    requires d > 0
    ensures CeilDiv(m + d, d) == CeilDiv(m, d) + 1
  {
    var x := m + d - 1;
    MulDistrib(x / d, d);
    DivUnique(x + d, d, x / d + 1, x % d);
  }

  lemma CeilDivSmall(m: nat, d: nat)
    requires 0 < m <= d
    ensures CeilDiv(m, d) == 1
  {
    DivUnique(m + d - 1, d, 1, m - 1);
  }
}
