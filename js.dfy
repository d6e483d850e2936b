/** Models of the JavaScript built-ins the dashboard's transforms rely on:
    `undefined` as an Option, truthiness of looked-up values, `toLowerCase`,
    the segments of `split('-')` and `Array.prototype.slice`. */
module Js {

  /** A value that may be absent: `undefined`, or `null` where the code treats both alike. */
  datatype Option<T> = None | Some(value: T)

  // ---------------------------------------------------------------- truthiness

  /** `m[k]` is truthy for a map of booleans: the key is present and switched on. */
  predicate Enabled(m: map<string, bool>, k: string)
  {
    k in m && m[k]
  }

  /** A possibly missing string is truthy when present and non-empty. */
  predicate TruthyText(s: Option<string>)
  {
    s.Some? && s.value != ""
  }

  /** `m[k]` where a missing key reads as `undefined`. */
  function LookupText(m: map<string, string>, k: string): (r: Option<string>)
    ensures r.Some? <==> k in m
    ensures r.Some? ==> r.value == m[k]
  {
    if k in m then Some(m[k]) else None
  }

  // ---------------------------------------------------------------- lower case

  predicate IsUpperAscii(c: char)
  {
    'A' <= c <= 'Z'
  }

  /** `toLowerCase` on one character (ASCII letters only). */
  function LowerChar(c: char): (r: char)
    ensures !IsUpperAscii(r)
    ensures IsUpperAscii(c) ==> r as int == c as int + 32
    ensures !IsUpperAscii(c) ==> r == c
  {
    if IsUpperAscii(c) then (c as int + 32) as char else c
  }

  /** `String.prototype.toLowerCase` (ASCII letters only). */
  function ToLowerCase(s: string): string
  {
    seq(|s|, i requires 0 <= i < |s| => LowerChar(s[i]))
  }

  // ---------------------------------------------------------------- split('-')

  /** `s.split('-')[0]`: the longest prefix of `s` without a hyphen. */
  function FirstSegment(s: string): (r: string)
    ensures r <= s && '-' !in r
    ensures |r| < |s| <==> '-' in s
    ensures |r| < |s| ==> s[|r|] == '-'
  {
    if s == [] || s[0] == '-' then [] else [s[0]] + FirstSegment(s[1..])
  }

  /** `s.split('-')[1]` for a string that has a hyphen: what lies between
      its first and its second hyphen (or the end). */
  function SecondSegment(s: string): (r: string)
    requires '-' in s
    ensures '-' !in r
    ensures |FirstSegment(s)| + 1 + |r| <= |s|
    ensures r == s[|FirstSegment(s)| + 1..][..|r|]
    ensures |FirstSegment(s)| + 1 + |r| == |s| || s[|FirstSegment(s)| + 1 + |r|] == '-'
  {
    FirstSegment(s[|FirstSegment(s)| + 1..])
  }

  // ---------------------------------------------------------------- slice

  /** How `Array.prototype.slice` resolves an index argument against a
      length: negative values count from the end, and both ends clamp. */
  function RelativeIndex(k: int, len: nat): (r: nat)
    ensures r <= len
    ensures 0 <= k <= len ==> r == k
    ensures k > len ==> r == len
    ensures k < 0 && len + k >= 0 ==> r == len + k
    ensures len + k < 0 ==> r == 0
  {
    if k < 0 then (if len + k < 0 then 0 else len + k)
    else if k > len then len
    else k
  }

  /** `s.slice(start, end)`. */
  function Slice<T>(s: seq<T>, start: int, end: int): (r: seq<T>)
    ensures |r| <= |s|
    ensures 0 <= start <= end <= |s| ==> r == s[start..end]
    ensures 0 <= start <= |s| <= end ==> r == s[start..]
    ensures 0 <= start <= |s| + end && end < 0 ==> r == s[start..|s| + end]
    ensures 0 <= end <= start ==> r == []
    ensures start >= |s| || end <= -|s| ==> r == []
  {
    var a, b := RelativeIndex(start, |s|), RelativeIndex(end, |s|);
    if a < b then s[a..b] else []
  }

  // ---------------------------------------------------------------- sums

  function Max(a: int, b: int): (r: int)
    ensures r >= a && r >= b && (r == a || r == b)
  {
    if a >= b then a else b
  }
}
