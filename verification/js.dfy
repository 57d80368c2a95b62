/** The few pieces of JavaScript value semantics the session route relies on. */
module Js {
  import opened Optional

  function Min(a: int, b: int): int
  {
    if a <= b then a else b
  }

  /** A string is truthy exactly when it is not empty. */
  predicate Truthy(s: string)
  {
    s != ""
  }

  /** `a || b` on two strings: the first truthy operand, else the last one. */
  function OrElse(a: string, b: string): (r: string)
    ensures Truthy(a) ==> r == a
    ensures !Truthy(a) ==> r == b
    ensures Truthy(r) <==> Truthy(a) || Truthy(b)
  {
    if a != "" then a else b
  }

  /** `xs?.length ? xs : fallback`: an absent or empty array yields the fallback. */
  function NonEmptyOr<T>(xs: Option<seq<T>>, fallback: seq<T>): (r: seq<T>)
    ensures xs.Some? && |xs.value| > 0 ==> r == xs.value
    ensures xs.None? || |xs.value| == 0 ==> r == fallback
    ensures |r| > 0 <==> (xs.Some? && |xs.value| > 0) || |fallback| > 0
  {
    match xs
    case Some(v) => if |v| > 0 then v else fallback
    case None => fallback
  }

  /** `s.slice(0, n)` for a non-negative `n`: the prefix of `s`, clamped to its length. */
  function SliceTo(s: string, n: nat): (r: string)
    ensures |r| == Min(n, |s|)
    ensures r <= s
    ensures r == "" <==> s == "" || n == 0
  {
    if n <= |s| then s[..n] else s
  }
}
