/**
 * The one JavaScript array operation the core leans on for its bounded
 * lists: `Array.prototype.slice(start)`, which the source calls as
 * `slice(-n)` to keep the last `n` elements.
 */
module JsArray {

  /** The index `slice(start)` starts copying from: a negative start counts
      back from the end and is clamped to 0, a positive one is clamped to the
      length. */
  function SliceStart(len: nat, start: int): (from: nat)
    ensures from <= len
    ensures start < 0 && len + start >= 0 ==> from == len + start
    ensures start < 0 && len + start < 0 ==> from == 0
    ensures 0 <= start ==> from == (if start <= len then start else len)
  {
    if start < 0 then (if len + start < 0 then 0 else len + start)
    else if start <= len then start
    else len
  }

  /** `s.slice(start)` as JavaScript evaluates it: the suffix of `s` that
      begins at `SliceStart`. */
  function SliceFrom<T>(s: seq<T>, start: int): (r: seq<T>)
    ensures |r| == |s| - SliceStart(|s|, start)
    ensures s == s[..|s| - |r|] + r
  {
    s[SliceStart(|s|, start)..]
  }

  /** The last `n` elements of `s`, or all of `s` when it is shorter. */
  function KeepLast<T>(s: seq<T>, n: nat): (r: seq<T>)
    ensures |r| == if |s| <= n then |s| else n
    ensures r == s[|s| - |r|..]
  {
    if |s| <= n then s else s[|s| - n..]
  }

  /** For every positive `n`, `slice(-n)` keeps exactly the last `n` elements. */
  lemma SliceNegativeIsKeepLast<T>(s: seq<T>, n: nat)
    requires n >= 1
    ensures SliceFrom(s, -(n as int)) == KeepLast(s, n)
  {
  }

  /** `slice(-0)` is `slice(0)`: it keeps every element, not none. */
  lemma SliceMinusZeroKeepsAll<T>(s: seq<T>)
    ensures SliceFrom(s, -0) == s
  {
  }

  /** Keeping the last `n` of `s + [x]` (n >= 1) keeps `x` last, preceded by
      the last `n - 1` elements of `s` in their order. */
  lemma KeepLastAppend<T>(s: seq<T>, x: T, n: nat)
    requires n >= 1
    ensures KeepLast(s + [x], n) == KeepLast(s, n - 1) + [x]
  {
    var t := s + [x];
    if |t| > n {
      assert t[|t| - n..] == s[|s| - (n - 1)..] + [x];
    } else {
      assert KeepLast(s, n - 1) == s;
    }
  }
}
