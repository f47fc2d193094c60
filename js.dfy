/** The few pieces of JavaScript's built-in behaviour that the listing core relies on:
    `undefined`, the result of `parseInt`, the `\s` character class, ASCII
    `toLowerCase`, `includes`, `trim() !== ''`, `split(/\s+/)`, number-to-string and
    `slice(0, n)`. `StartsWith` stands for a regular expression anchored with `^`, and
    `EndsWith` is used to state how an explanation text ends. */
module Js {

  /** A field or argument that may be `undefined` (or `null`). */
  datatype Option<T> = None | Some(value: T)

  /** What `parseInt` (or `parseFloat` on an integer) yields: `NaN` or an integer. */
  datatype Number = NaN | Int(value: int)

  /** The characters `\s` matches in a JavaScript regular expression; `trim` removes the same set. */
  predicate IsSpace(c: char) {
    || c == ' ' || c == '\t' || c == '\n' || c == '\r' || c == '\U{000B}' || c == '\U{000C}'
    || c == '\U{00A0}' || c == '\U{1680}' || ('\U{2000}' <= c <= '\U{200A}')
    || c == '\U{2028}' || c == '\U{2029}' || c == '\U{202F}' || c == '\U{205F}'
    || c == '\U{3000}' || c == '\U{FEFF}'
  }

  predicate IsDigit(c: char) {
    '0' <= c <= '9'
  }

  /** `[a-z0-9]` under the `i` flag: an ASCII letter of either case or a digit. */
  predicate IsAlnum(c: char) {
    ('a' <= c <= 'z') || ('A' <= c <= 'Z') || IsDigit(c)
  }

  /** `c.toLowerCase()` for ASCII letters; every other character is left alone. */
  function ToLowerChar(c: char): char {
    if 'A' <= c <= 'Z' then (c as int + 32) as char else c
  }

  function ToLower(s: string): string {
    seq(|s|, i requires 0 <= i < |s| => ToLowerChar(s[i]))
  }

  /** `p` is a prefix of `s`. */
  predicate StartsWith(s: string, p: string) {
    p <= s
  }

  /** `p` is a suffix of `s`. */
  predicate EndsWith(s: string, p: string) {
    |p| <= |s| && s[|s| - |p|..] == p
  }

  /** `s.includes(sub)`: `sub` starts at some position of `s`. */
  predicate Includes(s: string, sub: string)
    decreases |s|
  {
    StartsWith(s, sub) || (s != [] && Includes(s[1..], sub))
  }

  /** `sub` occurs in `s` starting at index `i`. */
  predicate OccursAt(s: string, sub: string, i: int)
  {
    0 <= i && i + |sub| <= |s| && s[i..i + |sub|] == sub
  }

  /** `s.includes(sub)` holds exactly when `sub` occurs at some index of `s`. */
  lemma {:induction false} IncludesMeans(s: string, sub: string)
    ensures Includes(s, sub) <==> exists i :: OccursAt(s, sub, i)
    decreases |s|
  {
    if StartsWith(s, sub) {
      assert OccursAt(s, sub, 0);
    } else if s != [] {
      var t := s[1..];
      IncludesMeans(t, sub);
      if Includes(t, sub) {
        var j :| OccursAt(t, sub, j);
        assert s[j + 1..j + 1 + |sub|] == t[j..j + |sub|];
        assert OccursAt(s, sub, j + 1);
      }
      if exists i :: OccursAt(s, sub, i) {
        var i :| OccursAt(s, sub, i);
        assert i > 0;
        assert t[i - 1..i - 1 + |sub|] == s[i..i + |sub|];
        assert OccursAt(t, sub, i - 1);
      }
    }
  }

  /** A string in which the first two characters of `sub` never stand side by side does not
      include `sub`. */
  lemma {:induction false} NotIncludes(s: string, sub: string)
    requires |sub| >= 2
    requires forall i :: 0 <= i < |s| - 1 ==> !(s[i] == sub[0] && s[i + 1] == sub[1])
    ensures !Includes(s, sub)
    decreases |s|
  {
    if |s| >= 2 {
      assert !(s[0] == sub[0] && s[1] == sub[1]);
    }
    assert !StartsWith(s, sub);
    if s != [] {
      var t := s[1..];
      forall i | 0 <= i < |t| - 1 ensures !(t[i] == sub[0] && t[i + 1] == sub[1]) {
        assert t[i] == s[i + 1] && t[i + 1] == s[i + 2];
      }
      NotIncludes(t, sub);
    }
  }

  /** The same for the lower-cased `s`, stated on the characters of `s` itself. */
  lemma NotIncludesLower(s: string, sub: string)
    requires |sub| >= 2
    requires forall i :: 0 <= i < |s| - 1 ==> !(ToLowerChar(s[i]) == sub[0] && ToLowerChar(s[i + 1]) == sub[1])
    ensures !Includes(ToLower(s), sub)
  {
    var t := ToLower(s);
    forall i | 0 <= i < |t| - 1 ensures !(t[i] == sub[0] && t[i + 1] == sub[1]) {
    }
    NotIncludes(t, sub);
  }

  /** Every character of `s` is whitespace, so `s.trim() === ''`. */
  predicate Blank(s: string) {
    forall i :: 0 <= i < |s| ==> IsSpace(s[i])
  }

  /** The longest prefix of `s` that holds no whitespace. */
  function Word(s: string): (w: string)
    ensures w <= s
    ensures s != [] && !IsSpace(s[0]) ==> |w| > 0
    ensures forall i :: 0 <= i < |w| ==> !IsSpace(w[i])
  {
    if s == [] || IsSpace(s[0]) then [] else [s[0]] + Word(s[1..])
  }

  /** The non-empty pieces of `s.split(/\s+/)`, in order. */
  function Tokens(s: string): seq<string>
    decreases |s|
  {
    if s == [] then []
    else if IsSpace(s[0]) then Tokens(s[1..])
    else
      var w := Word(s);
      [w] + Tokens(s[|w|..])
  }

  /** `s.split(/\s+/)` yields no non-empty piece exactly when `s` is blank. */
  lemma {:induction false} TokensEmptyIffBlank(s: string)
    ensures Tokens(s) == [] <==> Blank(s)
    decreases |s|
  {
    if s == [] {
    } else if IsSpace(s[0]) {
      TokensEmptyIffBlank(s[1..]);
      if Blank(s[1..]) {
        forall i | 0 <= i < |s| ensures IsSpace(s[i]) {
          if i > 0 { assert s[i] == s[1..][i - 1]; }
        }
      }
      if Blank(s) {
        forall i | 0 <= i < |s[1..]| ensures IsSpace(s[1..][i]) {
          assert s[1..][i] == s[i + 1];
        }
      }
    } else {
      assert !IsSpace(s[0]);
    }
  }

  /** ASCII lower-casing keeps every whitespace character and every other character apart. */
  lemma LowerKeepsBlank(s: string)
    ensures Blank(ToLower(s)) <==> Blank(s)
  {
    assert forall i :: 0 <= i < |s| ==> (IsSpace(ToLower(s)[i]) <==> IsSpace(s[i]));
  }

  /** `s.slice(0, n)`. */
  function Take<T>(s: seq<T>, n: nat): seq<T> {
    if |s| <= n then s else s[..n]
  }

  function Max(a: real, b: real): real {
    if a >= b then a else b
  }

  function Min(a: real, b: real): real {
    if a <= b then a else b
  }

  lemma ProductOverFactor(y: real, c: real)
    requires c != 0.0
    ensures (y * c) / c == y
  {
  }

  lemma DivMonotone(a: real, b: real, c: real)
    requires c > 0.0 && a <= b
    ensures a / c <= b / c
  {
  }

  lemma DivStrict(a: real, b: real, c: real)
    requires c > 0.0 && a < b
    ensures a / c < b / c
  {
  }

  /** A ratio of a part to a positive whole lies in [0, 1] and is 1 exactly when the part
      is the whole. */
  lemma RatioBounds(p: real, q: real)
    requires 0.0 <= p <= q && q > 0.0
    ensures 0.0 <= p / q <= 1.0
    ensures p / q == 1.0 <==> p == q
  {
    DivMonotone(p, q, q);
    DivMonotone(0.0, p, q);
    if p / q == 1.0 {
      assert p == (p / q) * q;
    }
  }

  /** One minus the shortfall of a part relative to the whole is the part relative to the
      whole. */
  lemma ShortfallRatio(p: real, q: real)
    requires q != 0.0
    ensures 1.0 - (q - p) / q == p / q
  {
    assert (q - p) / q == q / q - p / q;
  }

  function DigitChar(d: nat): char
    requires d < 10
  {
    ('0' as int + d) as char
  }

  /** `String(n)` (or `${n}`) for a non-negative integer: its decimal digits. */
  function NatToString(n: nat): string
    decreases n
  {
    if n < 10 then [DigitChar(n)] else NatToString(n / 10) + [DigitChar(n % 10)]
  }

  predicate AllDigits(s: string) {
    forall i :: 0 <= i < |s| ==> IsDigit(s[i])
  }

  /** The value of a string of decimal digits. */
  function DigitsValue(s: string): nat
    requires AllDigits(s)
    decreases |s|
  {
    if s == [] then 0 else DigitsValue(s[..|s| - 1]) * 10 + (s[|s| - 1] as int - '0' as int)
  }

  /** The longest prefix of `s` made of decimal digits. */
  function LeadingDigits(s: string): (d: string)
    ensures d <= s && AllDigits(d)
    ensures |d| < |s| ==> !IsDigit(s[|d|])
  {
    if s == [] || !IsDigit(s[0]) then [] else [s[0]] + LeadingDigits(s[1..])
  }

  function TrimStart(s: string): string
    decreases |s|
  {
    if s != [] && IsSpace(s[0]) then TrimStart(s[1..]) else s
  }

  /** `parseInt(s)` for decimal text: leading whitespace, an optional sign, then the longest
      run of decimal digits; `NaN` when there is no digit. A `0x` prefix, which `parseInt`
      without a radix reads as hexadecimal, is not modelled. */
  function ParseInt(s: string): Number {
    var t := TrimStart(s);
    var signed := t != [] && (t[0] == '-' || t[0] == '+');
    var u := if signed then t[1..] else t;
    var d := LeadingDigits(u);
    if d == [] then NaN
    else if signed && t[0] == '-' then Int(-(DigitsValue(d) as int))
    else Int(DigitsValue(d))
  }

  lemma {:induction false} NatToStringDigits(n: nat)
    ensures |NatToString(n)| > 0 && AllDigits(NatToString(n))
    ensures DigitsValue(NatToString(n)) == n
    decreases n
  {
    if n >= 10 {
      NatToStringDigits(n / 10);
      var s := NatToString(n);
      assert s[..|s| - 1] == NatToString(n / 10);
    }
  }

  lemma {:induction false} LeadingDigitsOfDigits(d: string, rest: string)
    requires AllDigits(d)
    requires rest != [] && !IsDigit(rest[0])
    ensures LeadingDigits(d + rest) == d
    decreases |d|
  {
    if d == [] {
      assert d + rest == rest;
    } else {
      assert (d + rest)[1..] == d[1..] + rest;
      LeadingDigitsOfDigits(d[1..], rest);
    }
  }

  /** Writing a number of minutes as `${n} mins` and reading it back with `parseInt`
      gives the number again. */
  lemma ParseIntOfMinutesLabel(n: nat)
    ensures ParseInt(NatToString(n) + " mins") == Int(n)
  {
    NatToStringDigits(n);
    var s := NatToString(n) + " mins";
    assert s[0] == NatToString(n)[0];
    assert TrimStart(s) == s;
    LeadingDigitsOfDigits(NatToString(n), " mins");
  }
}
