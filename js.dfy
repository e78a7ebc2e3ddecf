/** The few JavaScript string and value semantics the application relies on:
    truthiness of strings, `\s` and `\w` of regular expressions, `trim`, `includes`,
    `join`, `Number.prototype.toString` on integers, and `toLowerCase`/`toUpperCase`
    for ASCII and the Latin-1 letters. */
module Js {
  import opened Wrappers

  /** A string is truthy in JavaScript exactly when it is not empty. */
  predicate Truthy(s: string) {
    s != ""
  }

  /** `x` for an optional string `x` used as a condition: present and not empty. */
  predicate OptTruthy(o: Option<string>) {
    o.Some? && o.value != ""
  }

  /** `a || b` for optional strings, as the source uses it (`x || ""`). */
  function OrElse(o: Option<string>, fallback: string): (r: string)
    ensures OptTruthy(o) ==> r == o.value
    ensures !OptTruthy(o) ==> r == fallback
  {
    if OptTruthy(o) then o.value else fallback
  }

  /** JavaScript's `\s` class: WhiteSpace and LineTerminator code points. `String.prototype.trim`
      removes the same set. */
  predicate IsSpace(c: char) {
    var n := c as int;
    n == 0x09 || n == 0x0A || n == 0x0B || n == 0x0C || n == 0x0D || n == 0x20 ||
    n == 0xA0 || n == 0x1680 || (0x2000 <= n <= 0x200A) || n == 0x2028 || n == 0x2029 ||
    n == 0x202F || n == 0x205F || n == 0x3000 || n == 0xFEFF
  }

  /** JavaScript's `\w` class (without the `u` and `i` flags). */
  predicate IsWordChar(c: char) {
    ('a' <= c <= 'z') || ('A' <= c <= 'Z') || ('0' <= c <= '9') || c == '_'
  }

  predicate IsAsciiUpper(c: char) {
    'A' <= c <= 'Z'
  }

  predicate AllSpace(s: string) {
    forall i :: 0 <= i < |s| ==> IsSpace(s[i])
  }

  function TrimStart(s: string): (r: string)
    ensures |r| <= |s|
    ensures r != [] ==> !IsSpace(r[0])
    decreases |s|
  {
    if s != [] && IsSpace(s[0]) then TrimStart(s[1..]) else s
  }

  function TrimEnd(s: string): (r: string)
    decreases |s|
  {
    if s != [] && IsSpace(s[|s| - 1]) then TrimEnd(s[..|s| - 1]) else s
  }

  /** `String.prototype.trim`. */
  function Trim(s: string): string {
    TrimEnd(TrimStart(s))
  }

  lemma {:induction false} TrimStartEmpty(s: string)
    ensures TrimStart(s) == "" <==> AllSpace(s)
    decreases |s|
  {
    if s != [] && IsSpace(s[0]) {
      TrimStartEmpty(s[1..]);
      assert AllSpace(s) <==> AllSpace(s[1..]) by {
        if AllSpace(s[1..]) {
          forall i | 0 <= i < |s| ensures IsSpace(s[i]) {
            if i > 0 { assert s[i] == s[1..][i - 1]; }
          }
        }
      }
    } else if s != [] {
      assert !IsSpace(s[0]);
    }
  }

  lemma TrimEndOfNonSpaceStart(s: string)
    requires s != [] && !IsSpace(s[0])
    ensures TrimEnd(s) != ""
    decreases |s|
  {
    if IsSpace(s[|s| - 1]) {
      TrimEndOfNonSpaceStart(s[..|s| - 1]);
    }
  }

  /** The trimmed string is empty exactly when the string consists of whitespace only. */
  lemma TrimEmptyIffAllSpace(s: string)
    ensures Trim(s) == "" <==> AllSpace(s)
  {
    TrimStartEmpty(s);
    var t := TrimStart(s);
    if t != "" {
      TrimEndOfNonSpaceStart(t);
    }
  }

  predicate StartsWith(s: string, prefix: string) {
    |prefix| <= |s| && s[..|prefix|] == prefix
  }

  /** `String.prototype.includes`: `sub` occurs somewhere in `s`. */
  predicate Contains(s: string, sub: string)
    decreases |s|
  {
    StartsWith(s, sub) || (s != [] && Contains(s[1..], sub))
  }

  /** An occurrence at any offset, not only at the start, makes `includes` true. */
  lemma {:induction false} ContainsInfix(a: string, sub: string, b: string)
    ensures Contains(a + sub + b, sub)
    decreases |a|
  {
    if a == [] {
      assert a + sub + b == sub + b;
      assert (sub + b)[..|sub|] == sub;
    } else {
      ContainsInfix(a[1..], sub, b);
      assert (a + sub + b)[1..] == a[1..] + sub + b;
    }
  }

  /** `Array.prototype.join` on an array of strings. */
  function Join(items: seq<string>, sep: string): string
    decreases |items|
  {
    if |items| == 0 then ""
    else if |items| == 1 then items[0]
    else items[0] + sep + Join(items[1..], sep)
  }

  function DigitChar(d: nat): char
    requires d < 10
  {
    ['0', '1', '2', '3', '4', '5', '6', '7', '8', '9'][d]
  }

  function NatToString(n: nat): (r: string)
    ensures |r| >= 1
    decreases n
  {
    if n < 10 then [DigitChar(n)] else NatToString(n / 10) + [DigitChar(n % 10)]
  }

  /** `Number.prototype.toString` on an integral number. */
  function IntToString(n: int): string {
    if n < 0 then "-" + NatToString(-n) else NatToString(n)
  }

  /** `Math.ceil(n / d)` for an integer `n` and a positive divisor. */
  function CeilDiv(n: int, d: int): int
    requires d > 0
  {
    -((-n) / d)
  }

  /** A number is at most `ceil(n / d)` exactly when the `d`-sized pages before it do not yet
      hold all `n` items. */
  lemma CeilDivBound(p: int, n: int, d: int)
    requires d > 0
    ensures p <= CeilDiv(n, d) <==> (p - 1) * d < n
  {
    var q, r := (-n) / d, (-n) % d;
    assert -n == q * d + r && 0 <= r < d;
    var k := p - 1 + q;
    assert (p - 1) * d == k * d - q * d;
    if k <= -1 {
      assert k * d <= -d;
    } else {
      assert k * d >= 0;
    }
  }

  /** `toLowerCase` on one code point, for ASCII and the Latin-1 capitals; every other code
      point is left as it is. */
  function LowerChar(c: char): (r: char)
    ensures !IsAsciiUpper(r)
  {
    var n := c as int;
    if 'A' <= c <= 'Z' then (n + 32) as char
    else if 0xC0 <= n <= 0xDE && n != 0xD7 then (n + 32) as char
    else c
  }

  /** `toUpperCase` on one code point, for ASCII and the Latin-1 small letters (with `ÿ` to `Ÿ`);
      every other code point is left as it is. */
  function UpperChar(c: char): char {
    var n := c as int;
    if 'a' <= c <= 'z' then (n - 32) as char
    else if 0xE0 <= n <= 0xFE && n != 0xF7 then (n - 32) as char
    else if n == 0xFF then 0x178 as char
    else c
  }

  function Lower(s: string): (r: string)
    ensures |r| == |s|
    ensures forall i :: 0 <= i < |s| ==> r[i] == LowerChar(s[i])
    decreases |s|
  {
    if s == [] then [] else [LowerChar(s[0])] + Lower(s[1..])
  }

  function Upper(s: string): (r: string)
    ensures |r| == |s|
    ensures forall i :: 0 <= i < |s| ==> r[i] == UpperChar(s[i])
    decreases |s|
  {
    if s == [] then [] else [UpperChar(s[0])] + Upper(s[1..])
  }

  lemma LowerIdempotent(s: string)
    ensures Lower(Lower(s)) == Lower(s)
  {
    assert forall c: char :: LowerChar(LowerChar(c)) == LowerChar(c);
  }
}
