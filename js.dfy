/** The JavaScript operators the pages rely on, with JavaScript's meaning
    written out where it differs from Dafny's. */
module Js {

  function Min(a: int, b: int): int {
    if a <= b then a else b
  }

  /** `a % n`, which truncates toward zero (Dafny's `%` is Euclidean). */
  function Remainder(a: int, n: int): (r: int)
    requires n > 0
    ensures a >= 0 ==> 0 <= r < n
    ensures -n < r <= 0 || a >= 0
  {
    if a >= 0 then a % n else -((-a) % n)
  }

  /** `s.slice(start, end)` for non-negative bounds: both are clamped to the
      length, and an empty range gives the empty array. */
  function Slice<T>(s: seq<T>, start: nat, end: nat): (r: seq<T>)
    ensures |r| == if Min(end, |s|) <= Min(start, |s|) then 0 else Min(end, |s|) - Min(start, |s|)
    ensures forall k :: 0 <= k < |r| ==> r[k] == s[start + k]
  {
    var lo := Min(start, |s|);
    var hi := Min(end, |s|);
    if hi <= lo then [] else s[lo..hi]
  }
}
