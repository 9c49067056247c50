/**
 * The two Array.prototype operations the core relies on, with JavaScript's
 * semantics: `indexOf` (strict equality, -1 when absent) and `splice(start, 1)`
 * (a negative start counts from the end, so `splice(-1, 1)` drops the last
 * element).
 */
module JsArrays {

  /** `s.indexOf(x)`: the first position of `x`, or -1. */
  function IndexOf<T(==)>(s: seq<T>, x: T): (i: int)
    ensures -1 <= i < |s|
    ensures 0 <= i ==> s[i] == x && x !in s[..i]
    ensures i == -1 <==> x !in s
  {
    if s == [] then -1
    else if s[0] == x then 0
    else
      var j := IndexOf(s[1..], x);
      if j < 0 then -1 else j + 1
  }

  /** The position that `splice(start, ...)` starts at. */
  function SpliceStart(len: nat, start: int): (k: nat)
  {
    if start < 0 then (if len + start < 0 then 0 else len + start)
    else start
  }

  /** `s.splice(start, 1)`: the array after removing at most one element. */
  function SpliceOne<T>(s: seq<T>, start: int): (r: seq<T>)
  {
    var k := SpliceStart(|s|, start);
    if k < |s| then s[..k] + s[k + 1..] else s
  }
}
