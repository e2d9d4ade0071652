/** The two list operations the application builds on: a guarded `map`
    that rewrites the matching entries, and `filter`. */
module Lists {

  /** `xs.map(x => p(x) ? f(x) : x)`. */
  function UpdateWhere<T>(xs: seq<T>, p: T -> bool, f: T -> T): (r: seq<T>)
    ensures |r| == |xs|
    ensures forall i :: 0 <= i < |xs| ==> r[i] == (if p(xs[i]) then f(xs[i]) else xs[i])
  {
    if xs == [] then []
    else [if p(xs[0]) then f(xs[0]) else xs[0]] + UpdateWhere(xs[1..], p, f)
  }

  /** Rewriting again with an idempotent rewrite that keeps the guard true
      changes nothing more. */
  lemma UpdateWhereIdempotent<T>(xs: seq<T>, p: T -> bool, f: T -> T)
    requires forall x :: p(x) ==> p(f(x)) && f(f(x)) == f(x)
    ensures UpdateWhere(UpdateWhere(xs, p, f), p, f) == UpdateWhere(xs, p, f)
  {
    var once := UpdateWhere(xs, p, f);
    var twice := UpdateWhere(once, p, f);
    forall i | 0 <= i < |xs| ensures twice[i] == once[i] {
      if p(xs[i]) {
        assert p(once[i]);
      }
    }
  }

  /** `xs.filter(p)`. */
  function Filter<T>(xs: seq<T>, p: T -> bool): (r: seq<T>)
    ensures |r| <= |xs|
    ensures forall i :: 0 <= i < |r| ==> p(r[i])
    ensures forall i :: 0 <= i < |r| ==> r[i] in xs
    ensures forall i :: 0 <= i < |xs| && p(xs[i]) ==> xs[i] in r
  {
    if xs == [] then []
    else (if p(xs[0]) then [xs[0]] else []) + Filter(xs[1..], p)
  }

  /** `filter` keeps every entry satisfying the guard as many times as it
      occurs, and no other entry. */
  lemma {:induction false} FilterMultiset<T>(xs: seq<T>, p: T -> bool)
    ensures forall x :: multiset(Filter(xs, p))[x] == if p(x) then multiset(xs)[x] else 0
  {
    if xs != [] {
      FilterMultiset(xs[1..], p);
      assert xs == [xs[0]] + xs[1..];
      assert multiset(xs) == multiset([xs[0]]) + multiset(xs[1..]);
    }
  }

  /** Filtering a concatenation filters each part and keeps them in order, so
      the kept entries stay in their original order. */
  lemma {:induction false} FilterAppend<T>(a: seq<T>, b: seq<T>, p: T -> bool)
    ensures Filter(a + b, p) == Filter(a, p) + Filter(b, p)
  {
    if a == [] {
      assert a + b == b;
    } else {
      assert (a + b)[0] == a[0] && (a + b)[1..] == a[1..] + b;
      FilterAppend(a[1..], b, p);
    }
  }
}
