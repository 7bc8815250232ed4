/** Sequence helpers shared by the stepper models: reversal (Python's
    `list.reverse()` and `s[::-1]`), repetition of an output pattern, and sums. */
module Sequences {
  import opened Arith

  /** The sequence read back to front. */
  function Reverse<T>(s: seq<T>): (r: seq<T>)
    ensures |r| == |s|
  {
    if s == [] then [] else Reverse(s[1..]) + [s[0]]
  }

  /** Element k of the reversal is element |s|-1-k of the original. */
  lemma {:induction false} ReverseAt<T>(s: seq<T>, k: nat)
    requires k < |s|
    ensures Reverse(s)[k] == s[|s| - 1 - k]
  {
    if k < |s| - 1 {
      ReverseAt(s[1..], k);
    }
  }

  /** Reversing twice gives the original back. */
  lemma ReverseReverse<T>(s: seq<T>)
    ensures Reverse(Reverse(s)) == s
  {
    var r := Reverse(s);
    forall k | 0 <= k < |s|
      ensures Reverse(r)[k] == s[k]
    {
      ReverseAt(r, k);
      ReverseAt(s, |s| - 1 - k);
    }
  }

  /** Appending two pieces one after another appends their concatenation. */
  lemma Concat2<T>(s: seq<T>, a: seq<T>, b: seq<T>)
    ensures s + a + b == s + (a + b)
  {
  }

  /** Appending three pieces one after another appends their concatenation. */
  lemma Concat3<T>(s: seq<T>, a: seq<T>, b: seq<T>, c: seq<T>)
    ensures s + a + b + c == s + (a + b + c)
  {
  }

  /** Appending four pieces one after another appends their concatenation. */
  lemma Concat4<T>(s: seq<T>, a: seq<T>, b: seq<T>, c: seq<T>, d: seq<T>)
    ensures s + a + b + c + d == s + (a + b + c + d)
  {
  }

  /** `s` written `n` times, one copy after another. */
  function Repeat<T>(s: seq<T>, n: nat): seq<T>
  {
    if n == 0 then [] else Repeat(s, n - 1) + s
  }

  /** n copies of the pattern are n times as long. */
  lemma {:induction false} RepeatLength<T>(s: seq<T>, n: nat)
    ensures |Repeat(s, n)| == n * |s|
  {
    if n > 0 {
      RepeatLength(s, n - 1);
    }
  }

  /** Copy number j of the pattern sits at positions j*|s| .. (j+1)*|s|. */
  lemma {:induction false} RepeatCopy<T>(s: seq<T>, n: nat, j: nat)
    requires j < n
    ensures |Repeat(s, n)| == n * |s| && (j + 1) * |s| <= n * |s|
    ensures Repeat(s, n)[j * |s| .. (j + 1) * |s|] == s
  {
    assert (j + 1) * |s| <= n * |s| by {
      MulLe(j + 1, n, |s|);
    }
    RepeatLength(s, n);
    RepeatLength(s, n - 1);
    if j < n - 1 {
      RepeatCopy(s, n - 1, j);
      assert (n - 1) * |s| == |Repeat(s, n - 1)|;
      assert Repeat(s, n) == Repeat(s, n - 1) + s;
    } else {
      assert j * |s| == (n - 1) * |s| == |Repeat(s, n - 1)|;
    }
  }

  /** A piece of copy j of the pattern is the same piece of the pattern. */
  lemma RepeatSlice<T>(s: seq<T>, n: nat, j: nat, lo: nat, hi: nat)
    requires j < n && lo <= hi <= |s|
    ensures j * |s| + hi <= |Repeat(s, n)|
    ensures Repeat(s, n)[j * |s| + lo .. j * |s| + hi] == s[lo..hi]
  {
    RepeatCopy(s, n, j);
    MulSucc(j, |s|);
    MulLe(0, j, |s|);
    SubSlice(Repeat(s, n), j * |s|, |s|, lo, hi);
  }

  /** A slice of a slice is a slice. */
  lemma SubSlice<T>(w: seq<T>, base: nat, len: nat, lo: nat, hi: nat)
    requires base + len <= |w| && lo <= hi <= len
    ensures w[base .. base + len][lo..hi] == w[base + lo .. base + hi]
  {
    var a, b := w[base .. base + len][lo..hi], w[base + lo .. base + hi];
    assert |a| == |b|;
    forall i | 0 <= i < |a|
      ensures a[i] == b[i]
    {
    }
  }

  /** A slice within the first part of a concatenation. */
  lemma AppendSlice<T>(w: seq<T>, r: seq<T>, lo: nat, hi: nat)
    requires lo <= hi <= |w|
    ensures (w + r)[lo..hi] == w[lo..hi]
  {}

  /** A slice within the second part of a concatenation. */
  lemma PrependSlice<T>(w: seq<T>, r: seq<T>, lo: nat, hi: nat)
    requires lo <= hi <= |r|
    ensures (w + r)[|w| + lo .. |w| + hi] == r[lo..hi]
  {}

  /** The sum of a sequence of integers. */
  function Sum(s: seq<int>): int
  {
    if s == [] then 0 else Sum(s[..|s| - 1]) + s[|s| - 1]
  }

  /** A sum of non-negative numbers is zero only when every number is zero. */
  lemma {:induction false} SumZero(s: seq<int>)
    requires forall i :: 0 <= i < |s| ==> s[i] >= 0
    ensures Sum(s) >= 0
    ensures Sum(s) == 0 <==> forall i :: 0 <= i < |s| ==> s[i] == 0
  {
    if s != [] {
      SumZero(s[..|s| - 1]);
    }
  }
}
