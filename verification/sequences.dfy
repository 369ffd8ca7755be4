/** Kotlin's `filter` on lists, and the order it keeps. */
module Sequences {

  /** `filter(p)`: the elements that satisfy `p`, in their original order. */
  function Filter<T>(s: seq<T>, p: T -> bool): (r: seq<T>)
    ensures |r| <= |s|
  {
    if s == [] then []
    else (if p(s[0]) then [s[0]] else []) + Filter(s[1..], p)
  }

  /** `a` is `b` with some elements dropped and the rest kept in order. */
  ghost predicate IsSubsequence<T>(a: seq<T>, b: seq<T>)
    decreases |b|
  {
    if a == [] then true
    else if b == [] then false
    else (a[0] == b[0] && IsSubsequence(a[1..], b[1..])) || IsSubsequence(a, b[1..])
  }

  /** An element is kept iff it is present and satisfies the predicate. */
  lemma {:induction false} FilterMembers<T>(s: seq<T>, p: T -> bool, x: T)
    ensures x in Filter(s, p) <==> x in s && p(x)
  {
    if s != [] {
      FilterMembers(s[1..], p, x);
      assert s == [s[0]] + s[1..];
    }
  }

  /** Filtering a concatenation filters each part. */
  lemma {:induction false} FilterAppend<T>(a: seq<T>, b: seq<T>, p: T -> bool)
    ensures Filter(a + b, p) == Filter(a, p) + Filter(b, p)
  {
    if a == [] {
      assert a + b == b;
    } else {
      assert (a + b)[0] == a[0];
      assert (a + b)[1..] == a[1..] + b;
      FilterAppend(a[1..], b, p);
      var head := if p(a[0]) then [a[0]] else [];
      calc {
        Filter(a + b, p);
        head + Filter(a[1..] + b, p);
        head + (Filter(a[1..], p) + Filter(b, p));
        (head + Filter(a[1..], p)) + Filter(b, p);
        Filter(a, p) + Filter(b, p);
      }
    }
  }

  /** Filtering by `p` and then by `q` is filtering once by a predicate `r`
      that holds exactly where both do. */
  lemma {:induction false} FilterTwice<T>(s: seq<T>, p: T -> bool, q: T -> bool, r: T -> bool)
    requires forall x :: (p(x) && q(x)) == r(x)
    ensures Filter(Filter(s, p), q) == Filter(s, r)
  {
    if s != [] {
      FilterTwice(s[1..], p, q, r);
      var head := if p(s[0]) then [s[0]] else [];
      FilterAppend(head, Filter(s[1..], p), q);
      assert Filter(head, q) == if r(s[0]) then [s[0]] else [];
    }
  }

  /** The filtered list keeps the original order: it is a subsequence. */
  lemma {:induction false} FilterIsSubsequence<T>(s: seq<T>, p: T -> bool)
    ensures IsSubsequence(Filter(s, p), s)
  {
    if s != [] {
      FilterIsSubsequence(s[1..], p);
      var rest := Filter(s[1..], p);
      if p(s[0]) {
        assert Filter(s, p) == [s[0]] + rest;
        assert Filter(s, p)[1..] == rest;
      } else {
        assert Filter(s, p) == rest;
        if rest != [] {
          assert IsSubsequence(rest, s[1..]);
        }
      }
    }
  }

  /** Regrouping three runs. */
  lemma Regroup3<T>(a: seq<T>, b: seq<T>, c: seq<T>)
    ensures a + b + c == a + (b + c)
  {
  }

  /** The runs written one after another. */
  function Flatten<T>(runs: seq<seq<T>>): seq<T>
  {
    if runs == [] then [] else Flatten(runs[..|runs| - 1]) + runs[|runs| - 1]
  }

  /** One more run extends the flattened prefix by that run. */
  lemma FlattenStep<T>(runs: seq<seq<T>>, k: nat)
    requires k < |runs|
    ensures Flatten(runs[..k + 1]) == Flatten(runs[..k]) + runs[k]
  {
    assert runs[..k + 1][..k] == runs[..k];
  }

  /** Flattening distributes over appending runs. */
  lemma {:induction false} FlattenAppend<T>(a: seq<seq<T>>, b: seq<seq<T>>)
    ensures Flatten(a + b) == Flatten(a) + Flatten(b)
    decreases |b|
  {
    if b == [] {
      assert a + b == a;
    } else {
      var init := b[..|b| - 1];
      assert (a + b)[..|a + b| - 1] == a + init;
      FlattenAppend(a, init);
      Regroup3(Flatten(a), Flatten(init), b[|b| - 1]);
    }
  }

  /** Run `i` sits between the runs before it and the runs after it. */
  lemma FlattenAround<T>(runs: seq<seq<T>>, i: nat)
    requires i < |runs|
    ensures Flatten(runs) == Flatten(runs[..i]) + runs[i] + Flatten(runs[i + 1..])
  {
    assert runs == runs[..i + 1] + runs[i + 1..];
    FlattenAppend(runs[..i + 1], runs[i + 1..]);
    FlattenStep(runs, i);
  }
}
