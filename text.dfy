/**
 * The .NET string operations the model needs, on `string` = `seq<char>`.
 * Case mapping is the ASCII part of `ToLower`/`ToLowerInvariant`.
 */
module Text {
  import opened Wrappers

  function LowerChar(c: char): char
  {
    if 'A' <= c <= 'Z' then (c as int + 32) as char else c
  }

  /** `s.ToLower()` and `s.ToLowerInvariant()` on letters A-Z. */
  function ToLower(s: string): (r: string)
    ensures |r| == |s|
    ensures forall i :: 0 <= i < |s| ==> r[i] == LowerChar(s[i])
  {
    seq(|s|, i requires 0 <= i < |s| => LowerChar(s[i]))
  }

  /** `StringComparison.OrdinalIgnoreCase` on letters A-Z. */
  predicate EqualsIgnoreCase(a: string, b: string)
  {
    ToLower(a) == ToLower(b)
  }

  /** `bool.ToString()` */
  function BoolString(b: bool): string
  {
    if b then "True" else "False"
  }

  /** `b.ToString().ToLower()` */
  function LowerBool(b: bool): (r: string)
    ensures r == (if b then "true" else "false")
  {
    assert ToLower("True") == "true";
    assert ToLower("False") == "false";
    ToLower(BoolString(b))
  }

  function DigitChar(d: nat): char
    requires d < 10
  {
    "0123456789"[d]
  }

  /** The decimal digits of a natural number, most significant first. */
  function NatToString(n: nat): (r: string)
    decreases n
  {
    if n < 10 then [DigitChar(n)] else NatToString(n / 10) + [DigitChar(n % 10)]
  }

  /** `int.ToString()` (invariant culture): optional minus sign, then the digits. */
  function IntToString(i: int): string
  {
    if i < 0 then "-" + NatToString(-i) else NatToString(i)
  }

  predicate IsDigit(c: char)
  {
    '0' <= c <= '9'
  }

  lemma {:induction false} NatToStringDigits(n: nat)
    ensures |NatToString(n)| > 0
    ensures forall i :: 0 <= i < |NatToString(n)| ==> IsDigit(NatToString(n)[i])
    decreases n
  {
    if n >= 10 {
      NatToStringDigits(n / 10);
    }
  }

  /** `s.TrimStart(chars)` */
  function TrimStart(s: string, chars: set<char>): (r: string)
  {
    if |s| > 0 && s[0] in chars then TrimStart(s[1..], chars) else s
  }

  /** `s.TrimEnd(chars)` */
  function TrimEnd(s: string, chars: set<char>): (r: string)
  {
    if |s| > 0 && s[|s| - 1] in chars then TrimEnd(s[..|s| - 1], chars) else s
  }

  lemma {:induction false} TrimStartShape(s: string, chars: set<char>)
    ensures |TrimStart(s, chars)| <= |s|
    ensures TrimStart(s, chars) == s[|s| - |TrimStart(s, chars)|..]
    ensures forall i :: 0 <= i < |s| - |TrimStart(s, chars)| ==> s[i] in chars
    ensures |TrimStart(s, chars)| > 0 ==> TrimStart(s, chars)[0] !in chars
  {
    if |s| > 0 && s[0] in chars {
      TrimStartShape(s[1..], chars);
    }
  }

  /** Trimming twice trims nothing more. */
  lemma TrimStartIdempotent(s: string, chars: set<char>)
    ensures TrimStart(TrimStart(s, chars), chars) == TrimStart(s, chars)
  {
    TrimStartShape(s, chars);
  }

  lemma {:induction false} TrimEndShape(s: string, chars: set<char>)
    ensures |TrimEnd(s, chars)| <= |s|
    ensures TrimEnd(s, chars) == s[..|TrimEnd(s, chars)|]
    ensures forall i :: |TrimEnd(s, chars)| <= i < |s| ==> s[i] in chars
    ensures |TrimEnd(s, chars)| > 0 ==> TrimEnd(s, chars)[|TrimEnd(s, chars)| - 1] !in chars
  {
    if |s| > 0 && s[|s| - 1] in chars {
      TrimEndShape(s[..|s| - 1], chars);
    }
  }

  /** `string.Join(sep, parts)` */
  function Join(sep: string, parts: seq<string>): string
  {
    if |parts| == 0 then ""
    else if |parts| == 1 then parts[0]
    else parts[0] + sep + Join(sep, parts[1..])
  }

  lemma JoinTwo(sep: string, a: string, b: string)
    ensures Join(sep, [a, b]) == a + sep + b
  {
    assert [a, b][1..] == [b];
  }

  lemma JoinFour(sep: string, a: string, b: string, c: string, d: string)
    ensures Join(sep, [a, b, c, d]) == a + sep + b + sep + c + sep + d
  {
    assert [a, b, c, d][1..] == [b, c, d];
    assert [b, c, d][1..] == [c, d];
    JoinTwo(sep, c, d);
  }

  /** Each part followed by `", "`: what `s += part + ", "` builds up over a loop. */
  function Terminated(parts: seq<string>): string
  {
    if parts == [] then "" else parts[0] + ", " + Terminated(parts[1..])
  }

  lemma {:induction false} TerminatedIsJoin(parts: seq<string>)
    ensures parts != [] ==> Terminated(parts) == Join(", ", parts) + ", "
  {
    if |parts| > 1 {
      TerminatedIsJoin(parts[1..]);
    }
  }

  /**
   * `TrimEnd(',', ' ')` of the terminated list is the list joined by `", "`,
   * as long as no part is empty or ends in a comma or a space.
   */
  lemma TrimTerminated(parts: seq<string>)
    requires forall i :: 0 <= i < |parts| ==> |parts[i]| > 0 && parts[i][|parts[i]| - 1] !in {',', ' '}
    ensures TrimEnd(Terminated(parts), {',', ' '}) == Join(", ", parts)
  {
    if parts != [] {
      TerminatedIsJoin(parts);
      var j := Join(", ", parts);
      JoinLast(parts);
      var t := j + ", ";
      assert t[|t| - 1] == ' ' && t[..|t| - 1] == j + ",";
      assert (j + ",")[|j + ","| - 1] == ',' && (j + ",")[..|j + ","| - 1] == j;
      assert TrimEnd(j, {',', ' '}) == j;
      assert TrimEnd(j + ",", {',', ' '}) == j;
    }
  }

  /** A join of non-empty parts ends with the last character of its last part. */
  lemma {:induction false} JoinLast(parts: seq<string>)
    requires parts != [] && |parts[|parts| - 1]| > 0
    ensures |Join(", ", parts)| > 0
    ensures Join(", ", parts)[|Join(", ", parts)| - 1] == parts[|parts| - 1][|parts[|parts| - 1]| - 1]
  {
    if |parts| > 1 {
      JoinLast(parts[1..]);
    }
  }

  /** `(int?)x.ToString()`: the empty string for null. */
  function NullableToString(x: Option<int>): (r: string)
    ensures x.None? <==> r == ""
  {
    if x.Some? then IntToString(x.value) else ""
  }

  /** C#'s `x / 2` on `int`, which truncates toward zero. */
  function HalfTowardZero(x: int): (r: int)
    ensures x >= 0 ==> 0 <= x - 2 * r <= 1
    ensures x < 0 ==> -1 <= x - 2 * r <= 0
  {
    if x >= 0 then x / 2 else -((-x) / 2)
  }

  predicate IsBlank(c: char)
  {
    IsWhiteSpace(c) || c == '\0'
  }

  /** Leading and trailing white space and NUL characters removed. */
  function TrimBlank(s: string): (r: string)
    ensures |r| <= |s|
  {
    if |s| > 0 && IsBlank(s[0]) then TrimBlank(s[1..])
    else if |s| > 0 && IsBlank(s[|s| - 1]) then TrimBlank(s[..|s| - 1])
    else s
  }

  /** `bool.TryParse(s, out b)`: `true` or `false` in any case, possibly padded; null and anything else fail. */
  function TryParseBool(s: Option<string>): (r: Option<bool>)
    ensures s.None? ==> r.None?
    ensures r == Some(true) ==> s.Some? && ToLower(TrimBlank(s.value)) == "true"
    ensures r == Some(false) ==> s.Some? && ToLower(TrimBlank(s.value)) == "false"
  {
    if s.None? then None
    else if ToLower(TrimBlank(s.value)) == "true" then Some(true)
    else if ToLower(TrimBlank(s.value)) == "false" then Some(false)
    else None
  }

  /** The number of occurrences of `c` in `s`. */
  function Count(s: string, c: char): nat
  {
    if s == [] then 0 else (if s[0] == c then 1 else 0) + Count(s[1..], c)
  }

  lemma {:induction false} CountAppend(a: string, b: string, c: char)
    ensures Count(a + b, c) == Count(a, c) + Count(b, c)
  {
    if a == [] {
      assert a + b == b;
    } else {
      assert (a + b)[1..] == a[1..] + b;
      CountAppend(a[1..], b, c);
    }
  }

  predicate StartsWith(s: string, prefix: string)
  {
    |prefix| <= |s| && s[..|prefix|] == prefix
  }

  predicate EndsWith(s: string, suffix: string)
  {
    |suffix| <= |s| && s[|s| - |suffix|..] == suffix
  }

  /** `s.Contains(sub)` (ordinal) */
  predicate Contains(s: string, sub: string)
  {
    StartsWith(s, sub) || (|s| > 0 && Contains(s[1..], sub))
  }

  /** `s.Replace(pattern, replacement)` (ordinal, left to right, non-overlapping). */
  function Replace(s: string, pattern: string, replacement: string): string
    requires |pattern| > 0
  {
    if |s| < |pattern| then s
    else if s[..|pattern|] == pattern then replacement + Replace(s[|pattern|..], pattern, replacement)
    else [s[0]] + Replace(s[1..], pattern, replacement)
  }

  /** `char.IsWhiteSpace`: Unicode categories Zs, Zl, Zp and U+0009-U+000D, U+0085. */
  predicate IsWhiteSpace(c: char)
  {
    c == ' ' || ('\t' <= c <= '\r') || c == '\U{0085}' || c == '\U{00A0}' || c == '\U{1680}'
    || ('\U{2000}' <= c <= '\U{200A}') || c == '\U{2028}' || c == '\U{2029}' || c == '\U{202F}'
    || c == '\U{205F}' || c == '\U{3000}'
  }

  /** `string.IsNullOrEmpty(s)` with null as `None`. */
  predicate IsNullOrEmpty(s: Option<string>)
  {
    s.None? || s.value == ""
  }

  /** `string.IsNullOrWhiteSpace(s)` with null as `None`. */
  predicate IsNullOrWhiteSpace(s: Option<string>)
  {
    s.None? || forall i :: 0 <= i < |s.value| ==> IsWhiteSpace(s.value[i])
  }
}
