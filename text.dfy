/**
 * Character and string primitives that PHP's string functions reduce to.
 * Strings are sequences of characters; the character classes are the ASCII
 * ones that `ctype_*`, `strtolower` and the `[a-z0-9]` regex classes use.
 */
module Text {

  predicate IsDigit(c: char) { '0' <= c <= '9' }
  predicate IsLower(c: char) { 'a' <= c <= 'z' }
  predicate IsUpper(c: char) { 'A' <= c <= 'Z' }
  predicate IsAlpha(c: char) { IsLower(c) || IsUpper(c) }
  predicate IsAlnum(c: char) { IsAlpha(c) || IsDigit(c) }
  predicate IsHex(c: char) { IsDigit(c) || 'a' <= c <= 'f' || 'A' <= c <= 'F' }

  /** The characters PHP's `trim` removes when no character list is given. */
  const Blanks: set<char> := {' ', '\t', '\n', '\r', '\0', '\U{B}'}

  function LowerChar(c: char): char { if IsUpper(c) then (c as int + 32) as char else c }
  function UpperChar(c: char): char { if IsLower(c) then (c as int - 32) as char else c }

  /** strtolower */
  function ToLower(s: string): (r: string)
    ensures |r| == |s|
    ensures forall i :: 0 <= i < |s| ==> r[i] == LowerChar(s[i])
  {
    seq(|s|, i requires 0 <= i < |s| => LowerChar(s[i]))
  }

  /** strtoupper */
  function ToUpper(s: string): (r: string)
    ensures |r| == |s|
    ensures forall i :: 0 <= i < |s| ==> r[i] == UpperChar(s[i])
  {
    seq(|s|, i requires 0 <= i < |s| => UpperChar(s[i]))
  }

  predicate AllChars(s: string, p: char -> bool) { forall i :: 0 <= i < |s| ==> p(s[i]) }

  /** ltrim($s, $chars) */
  function LTrim(s: string, cs: set<char>): (r: string)
    ensures |r| <= |s| && r == s[|s| - |r|..]
    ensures r == [] || r[0] !in cs
  {
    if |s| > 0 && s[0] in cs then LTrim(s[1..], cs) else s
  }

  /** Everything ltrim removes is in the set. */
  lemma {:induction false} LTrimDropped(s: string, cs: set<char>)
    ensures forall i :: 0 <= i < |s| - |LTrim(s, cs)| ==> s[i] in cs
    decreases |s|
  {
    if |s| > 0 && s[0] in cs {
      LTrimDropped(s[1..], cs);
      assert forall i :: 1 <= i < |s| - |LTrim(s, cs)| ==> s[i] == s[1..][i - 1];
    }
  }

  /** rtrim($s, $chars) */
  function RTrim(s: string, cs: set<char>): (r: string)
    ensures |r| <= |s| && r == s[..|r|]
    ensures r == [] || r[|r| - 1] !in cs
    ensures forall i :: |r| <= i < |s| ==> s[i] in cs
  {
    if |s| > 0 && s[|s| - 1] in cs then RTrim(s[..|s| - 1], cs) else s
  }

  /** trim($s, $chars) */
  function Trim(s: string, cs: set<char>): string { RTrim(LTrim(s, cs), cs) }

  /** Index of the first occurrence of c, or |s| when there is none. */
  function IndexOf(s: string, c: char): (i: nat)
    ensures i <= |s|
    ensures i < |s| ==> s[i] == c
    ensures forall j :: 0 <= j < i ==> s[j] != c
  {
    if s == [] then 0 else if s[0] == c then 0 else 1 + IndexOf(s[1..], c)
  }

  /** explode($sep, $s) for a one-character separator */
  function Explode(sep: char, s: string): (parts: seq<string>)
    ensures |parts| >= 1
    ensures forall p :: p in parts ==> sep !in p
    decreases |s|
  {
    var i := IndexOf(s, sep);
    if i == |s| then [s] else [s[..i]] + Explode(sep, s[i + 1..])
  }

  /** implode($sep, $parts) */
  function Implode(sep: string, parts: seq<string>): string
  {
    if parts == [] then "" else if |parts| == 1 then parts[0] else parts[0] + sep + Implode(sep, parts[1..])
  }

  predicate IsPrefix(p: string, s: string) { |p| <= |s| && s[..|p|] == p }
  predicate IsSuffix(p: string, s: string) { |p| <= |s| && s[|s| - |p|..] == p }

  /** Concatenation is associative. */
  lemma Assoc<T>(a: seq<T>, b: seq<T>, c: seq<T>)
    ensures (a + b) + c == a + (b + c)
  {
  }

  /** The outer parts of a three-part concatenation are its prefix and its suffix. */
  lemma ConcatEnds(a: string, b: string, c: string)
    ensures IsPrefix(a, a + b + c) && IsPrefix(a + b, a + b + c) && IsSuffix(c, a + b + c)
  {
    assert (a + b + c)[..|a|] == a;
    assert (a + b + c)[..|a + b|] == a + b;
    assert (a + b + c)[|a + b + c| - |c|..] == c;
  }

  /** strpos($s, $sub) !== false, with the search written out position by position */
  predicate Contains(s: string, sub: string)
    decreases |s|
  {
    IsPrefix(sub, s) || (s != [] && Contains(s[1..], sub))
  }

  function DigitChar(d: nat): char requires d < 10 { ('0' as int + d) as char }

  /** The decimal text PHP prints for a non-negative integer. */
  function NatToString(n: nat): (r: string)
    ensures |r| >= 1 && AllChars(r, IsDigit)
    decreases n
  {
    if n < 10 then [DigitChar(n)] else NatToString(n / 10) + [DigitChar(n % 10)]
  }

  /** The decimal text PHP prints for an integer. */
  function IntToString(n: int): string
  {
    if n < 0 then "-" + NatToString(-n) else NatToString(n)
  }

  /** The value of a run of decimal digits. */
  function DigitsValue(s: string): nat
    requires AllChars(s, IsDigit)
    decreases |s|
  {
    if s == [] then 0 else DigitsValue(s[..|s| - 1]) * 10 + (s[|s| - 1] as int - '0' as int)
  }

  /** The longest prefix of s made of decimal digits. */
  function DigitPrefix(s: string): (r: string)
    ensures IsPrefix(r, s) && AllChars(r, IsDigit)
    ensures |r| == |s| || !IsDigit(s[|r|])
  {
    if s != [] && IsDigit(s[0]) then [s[0]] + DigitPrefix(s[1..]) else []
  }

  /** mb_substr($s, 0, $n) for a non-negative n */
  function Take(s: string, n: nat): (r: string)
    ensures r == if n <= |s| then s[..n] else s
  {
    if n <= |s| then s[..n] else s
  }

  /** Replace every maximal run of characters that fail p by one copy of sep. */
  function CollapseRuns(s: string, p: char -> bool, sep: string): (r: string)
    decreases |s|
  {
    if s == [] then []
    else if p(s[0]) then [s[0]] + CollapseRuns(s[1..], p, sep)
    else sep + CollapseRuns(SkipFailing(s, p), p, sep)
  }

  /** Drop the leading run of characters that fail p. */
  function SkipFailing(s: string, p: char -> bool): (r: string)
    ensures |r| <= |s| && r == s[|s| - |r|..]
    ensures s != [] && !p(s[0]) ==> |r| < |s|
    ensures r == [] || p(r[0])
  {
    if s != [] && !p(s[0]) then SkipFailing(s[1..], p) else s
  }

  lemma {:induction false} NatToStringDigits(n: nat)
    ensures DigitsValue(NatToString(n)) == n
    decreases n
  {
    if n >= 10 {
      NatToStringDigits(n / 10);
      var r := NatToString(n);
      assert r[..|r| - 1] == NatToString(n / 10);
    }
  }
}
