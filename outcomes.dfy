/** Option and Result, the failure-carrying values the model uses in place of
    Python's None and raised exceptions, and an order-preserving filter that
    stands for the list comprehensions `[x for x in xs if p(x)]`. */
module Outcomes {

  datatype Option<+T> = None | Some(value: T)

  datatype Result<+T, +E> = Ok(value: T) | Err(error: E)

  /** `[x for x in s if p(x)]`: keeps the elements that satisfy `p`, in order. */
  function Filter(s: seq<int>, p: int -> bool): (r: seq<int>)
    ensures |r| <= |s|
    ensures forall x :: x in r <==> x in s && p(x)
    decreases |s|
  {
    if |s| == 0 then []
    else if p(s[|s| - 1]) then Filter(s[..|s| - 1], p) + [s[|s| - 1]]
    else Filter(s[..|s| - 1], p)
  }

  /** Filtering works element by element, so the relative order of what it keeps
      is the order of the input: filtering a concatenation filters each part. */
  lemma {:induction false} FilterAppend(a: seq<int>, b: seq<int>, p: int -> bool)
    ensures Filter(a + b, p) == Filter(a, p) + Filter(b, p)
    decreases |b|
  {
    if |b| == 0 {
      assert a + b == a;
    } else {
      var b' := b[..|b| - 1];
      assert (a + b)[..|a + b| - 1] == a + b';
      assert (a + b)[|a + b| - 1] == b[|b| - 1];
      FilterAppend(a, b', p);
    }
  }

  /** A single element is kept exactly when it passes; with `FilterAppend` this
      pins `Filter(s, p)` down as the subsequence of `s` that passes, in order. */
  lemma FilterSingleton(x: int, p: int -> bool)
    ensures Filter([x], p) == if p(x) then [x] else []
  {
  }

  /** When every element passes, filtering changes nothing. */
  lemma {:induction false} FilterAll(s: seq<int>, p: int -> bool)
    requires forall i :: 0 <= i < |s| ==> p(s[i])
    ensures Filter(s, p) == s
    decreases |s|
  {
    if |s| > 0 {
      FilterAll(s[..|s| - 1], p);
    }
  }
}
