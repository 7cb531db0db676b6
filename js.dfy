/** Values of the JavaScript/TypeScript world that the application code relies on:
    optional (null or undefined) values, string truthiness, the `||` operator on
    optional strings, `startsWith`, and the two ways a promise settles. */
module Js {

  /** A value that may be null or undefined. */
  datatype Option<+T> = None | Some(value: T)

  /** How an awaited promise settles: with a value, or rejected with an error message. */
  datatype Settled<+T> = Resolved(value: T) | Rejected(reason: string)

  /** JavaScript truthiness of an optional string: null, undefined and "" are falsy. */
  predicate Truthy(s: Option<string>) {
    s.Some? && s.value != ""
  }

  /** `a || b` on optional strings: `a` when it is truthy, otherwise `b`. */
  function Or(a: Option<string>, b: Option<string>): (r: Option<string>)
    ensures Truthy(a) ==> r == a
    ensures !Truthy(a) ==> r == b
    ensures Truthy(r) <==> Truthy(a) || Truthy(b)
  {
    if Truthy(a) then a else b
  }

  /** `s.startsWith(prefix)`. */
  predicate StartsWith(s: string, prefix: string) {
    |prefix| <= |s| && s[..|prefix|] == prefix
  }

  /** `s.replace(pattern, "")` with a string pattern: removes the first occurrence
      of a non-empty `pattern`, and returns `s` unchanged when there is none. */
  function RemoveFirst(s: string, pattern: string): (r: string)
    requires pattern != []
    ensures |r| == |s| || |r| == |s| - |pattern|
    ensures StartsWith(s, pattern) ==> r == s[|pattern|..]
    decreases |s|
  {
    if StartsWith(s, pattern) then s[|pattern|..]
    else if s == [] then []
    else [s[0]] + RemoveFirst(s[1..], pattern)
  }
}
