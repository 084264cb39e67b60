/** The handful of JavaScript built-ins the presentation's logic relies on,
    stated with their exact JavaScript meaning on integers and reals. */
module Js {

  /** `undefined`-or-a-value, as returned by `Array.prototype.find` and by
      indexing an array out of bounds. */
  datatype Option<T> = None | Some(value: T)

  /** `Array.prototype.findIndex`: the index of the first element that
      satisfies `pred`, or -1 when there is none. */
  function FindIndex<T>(xs: seq<T>, pred: T -> bool): (i: int)
    ensures -1 <= i < |xs|
    ensures 0 <= i ==> pred(xs[i]) && forall j :: 0 <= j < i ==> !pred(xs[j])
    ensures i == -1 ==> forall j :: 0 <= j < |xs| ==> !pred(xs[j])
    decreases |xs|
  {
    if |xs| == 0 then -1
    else if pred(xs[0]) then 0
    else
      var k := FindIndex(xs[1..], pred);
      if k == -1 then -1 else k + 1
  }

  /** `xs[i]` on a JavaScript array: `undefined` unless `0 <= i < xs.length`. */
  function At<T>(xs: seq<T>, i: int): (r: Option<T>)
    ensures r.Some? <==> 0 <= i < |xs|
    ensures r.Some? ==> r.value == xs[i]
  {
    if 0 <= i < |xs| then Some(xs[i]) else None
  }

  /** `Array.prototype.find`: the first element that satisfies `pred`, or `undefined`. */
  function Find<T>(xs: seq<T>, pred: T -> bool): (r: Option<T>)
    ensures r.None? <==> forall j :: 0 <= j < |xs| ==> !pred(xs[j])
    ensures r.Some? ==> pred(r.value) && r.value in xs
  {
    At(xs, FindIndex(xs, pred))
  }

  /** JavaScript's `%`, whose sign follows the dividend (Dafny's `%` never
      yields a negative remainder). */
  function Rem(a: int, n: int): (r: int)
    requires n > 0
    ensures a >= 0 ==> r == a % n
    ensures a < 0 ==> -n < r <= 0
  {
    if a >= 0 then a % n else -((-a) % n)
  }

  /** `Math.floor` of a real. */
  function Floor(x: real): (r: int)
    ensures r as real <= x < r as real + 1.0
  {
    x.Floor
  }

  /** `Math.round`: the nearest integer, halves rounded upwards. */
  function Round(x: real): (r: int)
    ensures x - 0.5 < r as real <= x + 0.5
  {
    Floor(x + 0.5)
  }

  function Min(a: real, b: real): (r: real)
    ensures r <= a && r <= b && (r == a || r == b)
  {
    if a <= b then a else b
  }

  function Max(a: real, b: real): (r: real)
    ensures a <= r && b <= r && (r == a || r == b)
  {
    if a >= b then a else b
  }
}
