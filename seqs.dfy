/** Sequence operations that the application's views and actions are built
    from: JavaScript's `Array.prototype.filter` and `Array.prototype.find`,
    and the notion of a subsequence used to say that a filter keeps the
    original order. */
module Seqs {

  datatype Option<+T> = None | Some(value: T)

  /** `a` can be obtained from `b` by deleting elements (order is kept). */
  predicate IsSubsequence<T(==)>(a: seq<T>, b: seq<T>)
    decreases |b|
  {
    if a == [] then true
    else if b == [] then false
    else if a[0] == b[0] then IsSubsequence(a[1..], b[1..])
    else IsSubsequence(a, b[1..])
  }

  /** Every sequence is a subsequence of itself. */
  lemma {:induction false} IsSubsequenceRefl<T>(xs: seq<T>)
    ensures IsSubsequence(xs, xs)
  {
    if xs != [] {
      IsSubsequenceRefl(xs[1..]);
    }
  }

  /** `xs.filter(f)`: the elements satisfying `f`, in their original order. */
  function Filter<T>(xs: seq<T>, f: T -> bool): (r: seq<T>)
    ensures |r| <= |xs|
    ensures forall i :: 0 <= i < |r| ==> f(r[i]) && r[i] in xs
    ensures forall i :: 0 <= i < |xs| && f(xs[i]) ==> xs[i] in r
    ensures multiset(r) <= multiset(xs)
  {
    if xs == [] then []
    else
      assert xs == [xs[0]] + xs[1..];
      if f(xs[0]) then [xs[0]] + Filter(xs[1..], f)
      else Filter(xs[1..], f)
  }

  /** The filter result is a subsequence of its input. */
  lemma {:induction false} FilterIsSubsequence<T>(xs: seq<T>, f: T -> bool)
    ensures IsSubsequence(Filter(xs, f), xs)
  {
    if xs != [] {
      FilterIsSubsequence(xs[1..], f);
      var r := Filter(xs, f);
      if !f(xs[0]) && r != [] {
        assert r[0] in r;
        assert r[0] != xs[0];
      }
    }
  }

  /** Each element occurs in the result exactly as often as in the input when
      it satisfies `f`, and never otherwise. */
  lemma {:induction false} FilterCount<T>(xs: seq<T>, f: T -> bool, x: T)
    ensures multiset(Filter(xs, f))[x] == if f(x) then multiset(xs)[x] else 0
  {
    if xs != [] {
      var t := xs[1..];
      FilterCount(t, f, x);
      assert multiset(xs) == multiset{xs[0]} + multiset(t) by {
        assert xs == [xs[0]] + t;
      }
      if f(xs[0]) {
        assert Filter(xs, f) == [xs[0]] + Filter(t, f);
        assert multiset(Filter(xs, f)) == multiset{xs[0]} + multiset(Filter(t, f));
      } else {
        assert Filter(xs, f) == Filter(t, f);
      }
    }
  }

  /** A filter whose predicate holds everywhere keeps everything. */
  lemma {:induction false} FilterAll<T>(xs: seq<T>, f: T -> bool)
    requires forall i :: 0 <= i < |xs| ==> f(xs[i])
    ensures Filter(xs, f) == xs
  {
    if xs != [] {
      FilterAll(xs[1..], f);
    }
  }

  /** Filtering twice with the same predicate is filtering once. */
  lemma {:induction false} FilterIdempotent<T>(xs: seq<T>, f: T -> bool)
    ensures Filter(Filter(xs, f), f) == Filter(xs, f)
  {
    var r := Filter(xs, f);
    forall i | 0 <= i < |r| ensures f(r[i]) {
      assert r[i] in r;
    }
    FilterAll(r, f);
  }

  /** Filter distributes over concatenation. */
  lemma {:induction false} FilterAppend<T>(a: seq<T>, b: seq<T>, f: T -> bool)
    ensures Filter(a + b, f) == Filter(a, f) + Filter(b, f)
  {
    if a != [] {
      assert (a + b)[1..] == a[1..] + b;
      FilterAppend(a[1..], b, f);
    } else {
      assert a + b == b;
    }
  }

  /** Filtering by `f` and then by `g` is filtering once by their
      conjunction `h`. */
  lemma {:induction false} FilterFilter<T>(xs: seq<T>, f: T -> bool, g: T -> bool, h: T -> bool)
    requires forall i :: 0 <= i < |xs| ==> (h(xs[i]) <==> f(xs[i]) && g(xs[i]))
    ensures Filter(Filter(xs, f), g) == Filter(xs, h)
  {
    if xs != [] {
      FilterFilter(xs[1..], f, g, h);
      if f(xs[0]) {
        assert ([xs[0]] + Filter(xs[1..], f))[1..] == Filter(xs[1..], f);
      }
    }
  }

  /** A prefix one longer is the shorter prefix and one more element. */
  lemma TakeSnoc<T>(xs: seq<T>, n: nat)
    requires 0 < n <= |xs|
    ensures xs[..n] == xs[..n - 1] + [xs[n - 1]]
  {
  }

  /** Filtering a sequence extended by one element. */
  lemma FilterSnoc<T>(xs: seq<T>, x: T, f: T -> bool)
    ensures Filter(xs + [x], f) == Filter(xs, f) + if f(x) then [x] else []
  {
    FilterAppend(xs, [x], f);
    assert [x][1..] == [];
  }

  /** The concatenation of `f(x)` over the elements `x` of `xs`, in order. */
  function ConcatMap<T, U>(xs: seq<T>, f: T -> seq<U>): seq<U>
    decreases |xs|
  {
    if xs == [] then [] else ConcatMap(xs[..|xs| - 1], f) + f(xs[|xs| - 1])
  }

  /** One more element adds its image at the end. */
  lemma ConcatMapTake<T, U>(xs: seq<T>, i: nat, f: T -> seq<U>)
    requires i < |xs|
    ensures ConcatMap(xs[..i + 1], f) == ConcatMap(xs[..i], f) + f(xs[i])
  {
    assert xs[..i + 1][..i] == xs[..i];
  }

  lemma ConcatMapSnoc<T, U>(xs: seq<T>, x: T, f: T -> seq<U>)
    ensures ConcatMap(xs + [x], f) == ConcatMap(xs, f) + f(x)
  {
    assert (xs + [x])[..|xs|] == xs;
  }

  /** Mapping with `g`, which gives nothing for the elements that fail `p`
      and `f` for the others, is mapping `f` over the elements satisfying
      `p`. */
  lemma {:induction false} ConcatMapFilter<T, U>(xs: seq<T>, p: T -> bool, f: T -> seq<U>, g: T -> seq<U>)
    requires forall i :: 0 <= i < |xs| ==> g(xs[i]) == if p(xs[i]) then f(xs[i]) else []
    ensures ConcatMap(xs, g) == ConcatMap(Filter(xs, p), f)
    decreases |xs|
  {
    if xs != [] {
      var init, last := xs[..|xs| - 1], xs[|xs| - 1];
      TakeSnoc(xs, |xs|);
      assert xs[..|xs|] == xs;
      ConcatMapFilter(init, p, f, g);
      FilterSnoc(init, last, p);
      if p(last) {
        ConcatMapSnoc(Filter(init, p), last, f);
      } else {
        assert Filter(init, p) + [] == Filter(init, p);
      }
    }
  }

  /** Two predicates that can never hold together and that between them
      cover every element split the input into two parts. */
  lemma {:induction false} FilterPartition<T>(xs: seq<T>, f: T -> bool, g: T -> bool)
    requires forall i :: 0 <= i < |xs| ==> (f(xs[i]) <==> !g(xs[i]))
    ensures multiset(Filter(xs, f)) + multiset(Filter(xs, g)) == multiset(xs)
    ensures |Filter(xs, f)| + |Filter(xs, g)| == |xs|
  {
    if xs != [] {
      var t := xs[1..];
      assert forall i :: 0 <= i < |t| ==> t[i] == xs[i + 1];
      FilterPartition(t, f, g);
      assert xs == [xs[0]] + t;
      PartitionStep(xs[0], t, f, g);
    }
  }

  lemma PartitionStep<T>(x: T, t: seq<T>, f: T -> bool, g: T -> bool)
    requires f(x) <==> !g(x)
    requires multiset(Filter(t, f)) + multiset(Filter(t, g)) == multiset(t)
    requires |Filter(t, f)| + |Filter(t, g)| == |t|
    ensures multiset(Filter([x] + t, f)) + multiset(Filter([x] + t, g)) == multiset([x] + t)
    ensures |Filter([x] + t, f)| + |Filter([x] + t, g)| == |[x] + t|
  {
    var xs := [x] + t;
    assert xs[0] == x && xs[1..] == t;
    if f(x) {
      assert Filter(xs, f) == [x] + Filter(t, f);
      assert Filter(xs, g) == Filter(t, g);
    } else {
      assert Filter(xs, f) == Filter(t, f);
      assert Filter(xs, g) == [x] + Filter(t, g);
    }
  }

  /** `xs.findIndex(f)`, as an option: the position of the FIRST element
      satisfying `f`. */
  function FindIndex<T>(xs: seq<T>, f: T -> bool): (r: Option<nat>)
    ensures r.Some? ==> r.value < |xs| && f(xs[r.value])
    ensures r.Some? ==> forall j :: 0 <= j < r.value ==> !f(xs[j])
    ensures r.None? <==> forall j :: 0 <= j < |xs| ==> !f(xs[j])
  {
    if xs == [] then None
    else if f(xs[0]) then Some(0)
    else match FindIndex(xs[1..], f)
      case None => None
      case Some(k) => Some(k + 1)
  }

  /** `xs.find(f)`: the first element satisfying `f`, if any. */
  function Find<T>(xs: seq<T>, f: T -> bool): (r: Option<T>)
    ensures r.Some? <==> exists i :: 0 <= i < |xs| && f(xs[i])
    ensures r.Some? ==> exists i :: 0 <= i < |xs| && xs[i] == r.value && f(xs[i])
                                     && forall j :: 0 <= j < i ==> !f(xs[j])
  {
    match FindIndex(xs, f)
    case None => None
    case Some(i) => Some(xs[i])
  }

  /** The element `Find` returns is the one at the position `FindIndex`
      names. */
  lemma FindAt<T>(xs: seq<T>, f: T -> bool, i: nat)
    requires i < |xs| && f(xs[i])
    requires forall j :: 0 <= j < i ==> !f(xs[j])
    ensures FindIndex(xs, f) == Some(i)
    ensures Find(xs, f) == Some(xs[i])
  {
    var r := FindIndex(xs, f);
    assert r.Some?;
  }
}
