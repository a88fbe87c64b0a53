/**
  The array operations the client uses on numbers: `Array.prototype.slice`
  with its index clamping, and the running sum `reduce((a, b) => a + b, 0)`.
 */
module JsArrays {

  function Min(a: int, b: int): int
  {
    if a <= b then a else b
  }

  function Max(a: int, b: int): int
  {
    if a <= b then b else a
  }

  /**
    The index `slice` starts from (or stops at) for an argument `rel` on an
    array of length `len`: a negative argument counts back from the end, and
    the result is clamped into `[0, len]`.
   */
  function ClampIndex(rel: int, len: nat): (k: nat)
    ensures k <= len
    ensures 0 <= rel <= len ==> k == rel
    ensures -(len as int) <= rel < 0 ==> k == len + rel
  {
    if rel < 0 then Max(len + rel, 0) else Min(rel, len)
  }

  /** `s.slice(start, end)`: never fails, an empty result when the clamped range is empty. */
  function Slice<T>(s: seq<T>, start: int, end: int): (r: seq<T>)
    ensures |r| <= |s|
  {
    var k := ClampIndex(start, |s|);
    var f := ClampIndex(end, |s|);
    if k <= f then s[k..f] else []
  }

  /** `s.slice(start)`: from `start` (negative counts from the end) to the end. */
  function SliceFrom<T>(s: seq<T>, start: int): (r: seq<T>)
  {
    Slice(s, start, |s|)
  }

  /** `s.slice(0, k)` keeps the first `min(k, |s|)` elements, in order. */
  lemma SlicePrefix<T>(s: seq<T>, k: nat)
    ensures Slice(s, 0, k) == s[..Min(k, |s|)]
  {
  }

  /** `s.slice(-k)` for `k > 0` keeps the last `min(k, |s|)` elements, in order. */
  lemma SliceLast<T>(s: seq<T>, k: nat)
    requires k > 0
    ensures SliceFrom(s, -(k as int)) == s[|s| - Min(k, |s|)..]
    ensures |SliceFrom(s, -(k as int))| == Min(k, |s|)
  {
  }

  /** `s.slice(1)` drops the first element. */
  lemma SliceTail<T>(s: seq<T>)
    requires |s| > 0
    ensures SliceFrom(s, 1) == s[1..]
  {
  }

  /** The running sum of `reduce` started at 0, folding from the left as `reduce` does. */
  function Sum(s: seq<real>): real
  {
    if |s| == 0 then 0.0 else Sum(s[..|s| - 1]) + s[|s| - 1]
  }

  /** Extending a prefix by one element adds that element to the sum. */
  lemma SumStep(s: seq<real>, k: nat)
    requires k < |s|
    ensures Sum(s[..k + 1]) == Sum(s[..k]) + s[k]
  {
    assert s[..k + 1][..k] == s[..k];
  }

  /** A sum of non-negative terms is non-negative. */
  lemma {:induction false} SumNonNegative(s: seq<real>)
    requires forall i :: 0 <= i < |s| ==> s[i] >= 0.0
    ensures Sum(s) >= 0.0
  {
    if |s| > 0 {
      SumNonNegative(s[..|s| - 1]);
    }
  }

  /** A sum of non-negative terms is zero only when every term is zero. */
  lemma {:induction false} SumZero(s: seq<real>)
    requires forall i :: 0 <= i < |s| ==> s[i] >= 0.0
    requires Sum(s) == 0.0
    ensures forall i :: 0 <= i < |s| ==> s[i] == 0.0
  {
    if |s| > 0 {
      SumNonNegative(s[..|s| - 1]);
      SumZero(s[..|s| - 1]);
      assert forall i :: 0 <= i < |s| - 1 ==> s[..|s| - 1][i] == s[i];
    }
  }

  /** A sum of terms that all lie in `[lo, hi]` lies in `[lo * |s|, hi * |s|]`. */
  lemma {:induction false} SumBounds(s: seq<real>, lo: real, hi: real)
    requires forall i :: 0 <= i < |s| ==> lo <= s[i] <= hi
    ensures lo * |s| as real <= Sum(s) <= hi * |s| as real
  {
    if |s| > 0 {
      SumBounds(s[..|s| - 1], lo, hi);
    }
  }

  /** A sum of `|s|` copies of `c` is `|s| * c`. */
  lemma {:induction false} SumConstant(s: seq<real>, c: real)
    requires forall i :: 0 <= i < |s| ==> s[i] == c
    ensures Sum(s) == |s| as real * c
  {
    if |s| > 0 {
      SumConstant(s[..|s| - 1], c);
    }
  }

  /** Summing scaled terms is scaling the sum: `sum(k * s[i]) == k * sum(s)`. */
  lemma {:induction false} SumScale(s: seq<real>, t: seq<real>, k: real)
    requires |t| == |s|
    requires forall i :: 0 <= i < |s| ==> t[i] == k * s[i]
    ensures Sum(t) == k * Sum(s)
  {
    if |s| > 0 {
      SumScale(s[..|s| - 1], t[..|t| - 1], k);
    }
  }
}
