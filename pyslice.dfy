/** Python's (and numpy's) rules for a step-1 slice `s[start:stop]` of a
    sequence of length `n`: a negative bound counts from the end, the bound is
    then clamped to `[0, n]`, and the slice is empty when the adjusted start is
    not below the adjusted stop. */
module PySlice {

  /** A bound as Python reads it before clamping: negative counts from the end. */
  function Wrap(b: int, n: nat): int {
    if b < 0 then b + n else b
  }

  /** One slice bound after adjustment against a sequence of length `n`. */
  function Bound(b: int, n: nat): (r: nat)
    ensures r <= n
    ensures 0 <= Wrap(b, n) <= n ==> r == Wrap(b, n)
  {
    var v := Wrap(b, n);
    if v < 0 then 0 else if v > n then n else v
  }

  /** The half-open index range `[lo, hi)` that `s[start:stop]` selects. */
  function Range(start: int, stop: int, n: nat): (r: (nat, nat))
    ensures r.0 <= r.1 <= n
  {
    var lo := Bound(start, n);
    var hi := Bound(stop, n);
    if hi < lo then (lo, lo) else (lo, hi)
  }

  /** Number of elements of `s[start:stop]` for `|s| == n`. */
  function Len(start: int, stop: int, n: nat): (k: nat)
    ensures k <= n
  {
    Range(start, stop, n).1 - Range(start, stop, n).0
  }

  /** Python's own description of a slice: index `i` is selected exactly when
      it is a valid index lying between the wrapped bounds. */
  lemma RangeSelects(start: int, stop: int, n: nat, i: int)
    ensures Range(start, stop, n).0 <= i < Range(start, stop, n).1
        <==> 0 <= i < n && Wrap(start, n) <= i < Wrap(stop, n)
  {
  }

  /** Bounds already inside the sequence are taken as they are. */
  lemma RangeInBounds(start: int, stop: int, n: nat)
    requires 0 <= start <= stop <= n
    ensures Range(start, stop, n) == (start, stop)
    ensures Len(start, stop, n) == stop - start
  {
  }

  /** A negative start wraps to the far end of the sequence: when it lands at
      or beyond the stop, the slice is empty even though `start < stop`. */
  lemma NegativeStartWraps(start: int, stop: int, n: nat)
    requires 0 <= start + n && start < 0 <= stop <= n
    ensures Len(start, stop, n) == if start + n < stop then stop - (start + n) else 0
  {
  }

  /** `s[start:stop]`. */
  function Take<T>(s: seq<T>, start: int, stop: int): (r: seq<T>)
    ensures |r| == Len(start, stop, |s|)
    ensures forall k :: 0 <= k < |r| ==> r[k] == s[Range(start, stop, |s|).0 + k]
  {
    var (lo, hi) := Range(start, stop, |s|);
    s[lo..hi]
  }
}
