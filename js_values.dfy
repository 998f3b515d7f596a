/** The few JavaScript value idioms the calendar function relies on, over
    optional strings: truthiness, the `||` fallback and `slice(0, n)`.
    Every `char` of a string here stands for one UTF-16 code unit. */
module JsValues {
  import opened Wrappers

  /** A string value is truthy when it is present and non-empty. */
  predicate Truthy(s: Option<string>) {
    s.Some? && s.value != ""
  }

  /** `a || b`: the left operand when it is truthy, otherwise the right one. */
  function Or(a: Option<string>, b: Option<string>): Option<string> {
    if Truthy(a) then a else b
  }

  /** `(a || fallback)` where `fallback` is a string literal. */
  function OrElse(a: Option<string>, fallback: string): string {
    if Truthy(a) then a.value else fallback
  }

  /** `s.slice(0, n)` for a non-negative `n`. */
  function SlicePrefix(s: string, n: nat): (r: string)
    ensures |r| <= n && r <= s
    ensures |s| <= n ==> r == s
    ensures n < |s| ==> |r| == n
  {
    if |s| <= n then s else s[..n]
  }
}
