/** The few JavaScript semantics the modelled code leans on: the truthiness of
    an optional string, `a || b` on optional strings, and `Array.prototype.slice`
    with one end index. */
module Js {
  import opened Wrappers

  /** `!!x` for `x: string | null | undefined`: only a present, non-empty string is truthy. */
  predicate Truthy(x: Option<string>) {
    x.Some? && x.value != ""
  }

  /** `x || fallback` for an optional string. */
  function OrElse(x: Option<string>, fallback: string): (r: string)
    ensures Truthy(x) ==> r == x.value
    ensures !Truthy(x) ==> r == fallback
  {
    if Truthy(x) then x.value else fallback
  }

  /** `s.slice(0, end)` for an integer `end`: a negative end counts back from
      the end of the array, and the index is clamped to `[0, |s|]`. */
  function SliceTo<T>(s: seq<T>, end: int): (r: seq<T>)
    ensures 0 <= end ==> |r| == (if end < |s| then end else |s|)
    ensures end < 0 ==> |r| == (if -end < |s| then |s| + end else 0)
    ensures r <= s
  {
    var stop := if end < 0 then (if -end < |s| then |s| + end else 0)
                else (if end < |s| then end else |s|);
    s[..stop]
  }
}
