/** The three array operations the client state is built from —
    `filter`, `map` with a per-element update, and `find` — over immutable
    sequences. */
module Lists {
  import opened Wrappers

  /** `a` is `b` with some elements dropped and the rest kept in order. */
  predicate IsSubsequence<T(==)>(a: seq<T>, b: seq<T>)
    decreases |b|
  {
    a == [] || (b != [] && if a[0] == b[0] then IsSubsequence(a[1..], b[1..]) else IsSubsequence(a, b[1..]))
  }

  /** `xs.filter(keep)`: the elements satisfying `keep`, in their original
      order; nothing is dropped when every element satisfies `keep`. */
  function Filter<T(==)>(xs: seq<T>, keep: T -> bool): (r: seq<T>)
    ensures |r| <= |xs|
    ensures forall i :: 0 <= i < |r| ==> keep(r[i]) && r[i] in xs
    ensures forall i :: 0 <= i < |xs| && keep(xs[i]) ==> xs[i] in r
    ensures IsSubsequence(r, xs)
    ensures (forall i :: 0 <= i < |xs| ==> keep(xs[i])) ==> r == xs
  {
    if xs == [] then []
    else
      var rest := Filter(xs[1..], keep);
      if keep(xs[0]) then [xs[0]] + rest
      else
        assert rest == [] || rest[0] != xs[0] by {
          if rest != [] { assert keep(rest[0]); }
        }
        rest
  }

  /** `filter` keeps every copy of a kept element and no copy of a dropped
      one: it removes exactly the elements failing `keep`. */
  lemma {:induction false} FilterCount<T>(xs: seq<T>, keep: T -> bool)
    ensures forall x :: multiset(Filter(xs, keep))[x] == if keep(x) then multiset(xs)[x] else 0
  {
    if xs != [] {
      FilterCount(xs[1..], keep);
      var rest := Filter(xs[1..], keep);
      assert xs == [xs[0]] + xs[1..];
      assert multiset(xs) == multiset{xs[0]} + multiset(xs[1..]);
      if keep(xs[0]) {
        assert multiset([xs[0]] + rest) == multiset{xs[0]} + multiset(rest);
      }
    }
  }

  /** `xs.map(x => hit(x) ? f(x) : x)`: the elements satisfying `hit` are
      replaced by their update; every other element, the length and the order
      stay as they were. */
  function UpdateWhere<T>(xs: seq<T>, hit: T -> bool, f: T -> T): (r: seq<T>)
    ensures |r| == |xs|
    ensures forall i :: 0 <= i < |xs| && hit(xs[i]) ==> r[i] == f(xs[i])
    ensures forall i :: 0 <= i < |xs| && !hit(xs[i]) ==> r[i] == xs[i]
  {
    if xs == [] then []
    else [if hit(xs[0]) then f(xs[0]) else xs[0]] + UpdateWhere(xs[1..], hit, f)
  }

  /** `xs.find(p)`: the first element satisfying `p`, or `undefined`. */
  function FindFirst<T>(xs: seq<T>, p: T -> bool): (r: Option<T>)
    ensures r.None? <==> forall i :: 0 <= i < |xs| ==> !p(xs[i])
    ensures r.Some? ==> exists i :: 0 <= i < |xs| && xs[i] == r.value && p(xs[i])
                                    && forall k :: 0 <= k < i ==> !p(xs[k])
  {
    if xs == [] then None
    else if p(xs[0]) then Some(xs[0])
    else
      var r := FindFirst(xs[1..], p);
      assert forall k :: 1 <= k < |xs| ==> xs[k] == xs[1..][k - 1];
      r
  }
}
