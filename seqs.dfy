/** The order-preserving filter performed by JavaScript's `Array.prototype.filter`
    and by the `reduce` loops that push only the elements passing a test. */
module Seqs {

  /** The elements of `s` satisfying `f`, in their original order (a left fold, as `reduce` runs). */
  function Filter<T>(s: seq<T>, f: T -> bool): (r: seq<T>)
    ensures |r| <= |s|
    ensures forall x :: x in r ==> x in s && f(x)
  {
    if s == [] then [] else Filter(s[..|s| - 1], f) + (if f(s[|s| - 1]) then [s[|s| - 1]] else [])
  }

  /** One more element: what a filtering loop does at index `i`. */
  lemma FilterPrefix<T>(s: seq<T>, f: T -> bool, i: nat)
    requires i < |s|
    ensures Filter(s[..i + 1], f) == Filter(s[..i], f) + (if f(s[i]) then [s[i]] else [])
  {
    assert s[..i + 1][..i] == s[..i];
  }

  /** Filtering distributes over concatenation: relative order is kept across the whole sequence. */
  lemma {:induction false} FilterConcat<T>(a: seq<T>, b: seq<T>, f: T -> bool)
    ensures Filter(a + b, f) == Filter(a, f) + Filter(b, f)
  {
    if b == [] {
      assert a + b == a;
    } else {
      var b' := b[..|b| - 1];
      assert (a + b)[..|a + b| - 1] == a + b';
      assert (a + b)[|a + b| - 1] == b[|b| - 1];
      FilterConcat(a, b', f);
    }
  }

  /** Nothing that passes is dropped and nothing that fails is kept, counting duplicates. */
  lemma {:induction false} FilterCount<T>(s: seq<T>, f: T -> bool, x: T)
    ensures multiset(Filter(s, f))[x] == if f(x) then multiset(s)[x] else 0
  {
    if s != [] {
      var n := |s| - 1;
      assert s == s[..n] + [s[n]];
      FilterCount(s[..n], f, x);
    }
  }

  /** Filtering twice is filtering once by both tests. */
  lemma {:induction false} FilterFilter<T>(s: seq<T>, f: T -> bool, g: T -> bool, fg: T -> bool)
    requires forall x :: fg(x) == (f(x) && g(x))
    ensures Filter(Filter(s, f), g) == Filter(s, fg)
  {
    if s != [] {
      var n := |s| - 1;
      FilterFilter(s[..n], f, g, fg);
      FilterConcat(Filter(s[..n], f), if f(s[n]) then [s[n]] else [], g);
      if f(s[n]) {
        assert Filter([s[n]], g) == Filter([], g) + (if g(s[n]) then [s[n]] else []);
      }
    }
  }

  /** `Array.prototype.splice(start, 1)`: a negative start counts back from the end
      (clamped at 0), and a start at or past the end removes nothing. */
  function SpliceOne<T>(s: seq<T>, start: int): (r: seq<T>)
    ensures s == [] ==> r == []
    ensures 0 <= start < |s| ==> r == s[..start] + s[start + 1..]
    ensures -|s| <= start < 0 ==> r == s[..|s| + start] + s[|s| + start + 1..]
    ensures s != [] && start < -|s| ==> r == s[1..]
    ensures start >= |s| ==> r == s
  {
    var from := if start < 0 then (if |s| + start < 0 then 0 else |s| + start)
                else (if start > |s| then |s| else start);
    if from < |s| then s[..from] + s[from + 1..] else s
  }
}
