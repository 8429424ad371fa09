/**
 * The slice of JavaScript semantics that the request handlers rely on:
 * optional values, truthiness of JSON scalars, handler replies with an HTTP
 * status, `parseInt(x) || d` limits, `Array.prototype.slice(0, n)`, and the
 * string tests `startsWith`, `includes` and `toLowerCase`.
 */
module Js {

  datatype Option<+T> = None | Some(value: T) {
    function GetOr(default: T): T {
      if Some? then value else default
    }
  }

  /** A scalar JSON value taken from a request body. */
  datatype Json = JNull | JBool(b: bool) | JNum(n: real) | JStr(s: string) {
    /** JavaScript truthiness: null, false, 0 and "" are falsy, everything else truthy. */
    predicate Truthy() {
      match this
      case JNull => false
      case JBool(b) => b
      case JNum(n) => n != 0.0
      case JStr(s) => s != ""
    }
  }

  /** An optional string is truthy when it is present and not empty. */
  predicate Given(s: Option<string>) {
    s.Some? && s.value != ""
  }

  /** What a handler answers: 200 with a payload, or an error status with a message. */
  datatype Reply<+T> = Ok(value: T) | Err(code: int, message: string) {
    function Status(): int {
      if Ok? then 200 else code
    }
  }

  /** The result of `parseInt` on a query parameter that is present. */
  datatype ParsedInt = NaN | Int(i: int)

  /**
   * `parseInt(param) || d`: an absent parameter parses to NaN, and NaN and 0
   * are falsy, so all three fall back to `d`.
   */
  function LimitOr(param: Option<ParsedInt>, d: int): (n: int)
    ensures n != 0 || d == 0
    ensures param.Some? && param.value.Int? && param.value.i != 0 ==> n == param.value.i
    ensures (param.None? || param.value.NaN? || param.value == Int(0)) ==> n == d
  {
    match param
    case None => d
    case Some(NaN) => d
    case Some(Int(i)) => if i == 0 then d else i
  }

  /**
   * The length of `s.slice(0, n)` for `|s| == len`: a negative `n` counts
   * from the end, and the result is clamped to `[0, len]`.
   */
  function SliceEnd(len: nat, n: int): (e: nat)
    ensures e <= len
    ensures n >= 0 ==> e <= n && (e == n || e == len)
    ensures n < 0 ==> e == if len + n < 0 then 0 else len + n
  {
    if n >= 0 then (if n < len then n else len)
    else if len + n < 0 then 0 else len + n
  }

  /** `s.slice(0, n)`. */
  function Take<T>(s: seq<T>, n: int): (r: seq<T>)
    ensures |r| == SliceEnd(|s|, n)
    ensures r <= s
  {
    s[..SliceEnd(|s|, n)]
  }

  predicate StartsWith(s: string, prefix: string) {
    |prefix| <= |s| && s[..|prefix|] == prefix
  }

  /** `s.includes(t)`. */
  predicate Contains(s: string, t: string)
    decreases |s|
  {
    StartsWith(s, t) || (|s| > 0 && Contains(s[1..], t))
  }

  /** A string contains every string it is the middle part of. */
  lemma {:induction false} ContainsMiddle(a: string, t: string, b: string)
    ensures Contains(a + t + b, t)
  {
    if a == [] {
      assert a + t + b == t + b;
      assert (t + b)[..|t|] == t;
    } else {
      assert (a + t + b)[1..] == a[1..] + t + b;
      ContainsMiddle(a[1..], t, b);
    }
  }

  /** `toLowerCase` on the ASCII letters. */
  function LowerChar(c: char): char {
    if 'A' <= c <= 'Z' then (c as int + 32) as char else c
  }

  function Lower(s: string): (r: string)
    ensures |r| == |s|
    ensures forall i :: 0 <= i < |s| ==> r[i] == LowerChar(s[i])
  {
    seq(|s|, i requires 0 <= i < |s| => LowerChar(s[i]))
  }
}
