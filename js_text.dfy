/** The few JavaScript string operations the sign-in script relies on:
    `includes`, `split(sep)[0]`, `split(sep).pop()`, `trim`, `Number#toString`
    for integers and `padStart`. Strings are sequences of Unicode scalar values. */
module JsText {

  /** `s.includes(sub)`: `sub` occurs in `s` at some offset. */
  predicate Includes(s: string, sub: string)
    decreases |s|
  {
    |sub| <= |s| && (s[..|sub|] == sub || Includes(s[1..], sub))
  }

  /** `sub` occurs in `s` at offset `i`. */
  predicate OccursAt(s: string, sub: string, i: nat)
  {
    i + |sub| <= |s| && s[i..i + |sub|] == sub
  }

  /** An occurrence at offset `i` is found by `Includes`. */
  lemma {:induction false} IncludesAt(s: string, sub: string, i: nat)
    requires OccursAt(s, sub, i)
    ensures Includes(s, sub)
    decreases i
  {
    if i > 0 && s[..|sub|] != sub {
      assert s[1..][i - 1..i - 1 + |sub|] == s[i..i + |sub|];
      IncludesAt(s[1..], sub, i - 1);
    }
  }

  /** The converse: with no occurrence at any offset, `Includes` is false. */
  lemma {:induction false} NoOccurrenceNotIncluded(s: string, sub: string)
    requires sub != []
    requires forall i: nat :: !OccursAt(s, sub, i)
    ensures !Includes(s, sub)
    decreases |s|
  {
    if |sub| <= |s| {
      assert !OccursAt(s, sub, 0);
      assert s[0..|sub|] == s[..|sub|];
      forall i: nat
        ensures !OccursAt(s[1..], sub, i)
      {
        assert !OccursAt(s, sub, i + 1);
        if i + |sub| <= |s| - 1 {
          assert s[1..][i..i + |sub|] == s[i + 1..i + 1 + |sub|];
        }
      }
      NoOccurrenceNotIncluded(s[1..], sub);
    }
  }

  /** `s.split(sep)[0]`: the text before the first `sep`, or all of `s`. */
  function BeforeFirst(s: string, sep: char): (r: string)
    ensures |r| <= |s|
  {
    if s == [] || s[0] == sep then [] else [s[0]] + BeforeFirst(s[1..], sep)
  }

  /** `BeforeFirst` is the longest prefix without `sep`: the character after it,
      if any, is `sep`. */
  lemma {:induction false} BeforeFirstIsPrefix(s: string, sep: char)
    ensures var r := BeforeFirst(s, sep);
      sep !in r && r == s[..|r|] && (|r| < |s| ==> s[|r|] == sep)
  {
    if s != [] && s[0] != sep {
      BeforeFirstIsPrefix(s[1..], sep);
      assert BeforeFirst(s, sep)[1..] == BeforeFirst(s[1..], sep);
    }
  }

  /** `s.split(sep).pop()`: the text after the last `sep`, or all of `s`. */
  function AfterLast(s: string, sep: char): (r: string)
    ensures |r| <= |s|
  {
    if s == [] || s[|s| - 1] == sep then [] else AfterLast(s[..|s| - 1], sep) + [s[|s| - 1]]
  }

  /** `AfterLast` is the longest suffix without `sep`: the character before it,
      if any, is `sep`. */
  lemma {:induction false} AfterLastIsSuffix(s: string, sep: char)
    ensures var r := AfterLast(s, sep);
      sep !in r && r == s[|s| - |r|..] && (|r| < |s| ==> s[|s| - |r| - 1] == sep)
  {
    if s != [] && s[|s| - 1] != sep {
      var front := s[..|s| - 1];
      AfterLastIsSuffix(front, sep);
      var r' := AfterLast(front, sep);
      assert AfterLast(s, sep) == r' + [s[|s| - 1]];
      assert front[|front| - |r'|..] + [s[|s| - 1]] == s[|s| - |r'| - 1..];
    }
  }

  /** Appending text without the separator extends the text after the last one. */
  lemma {:induction false} AfterLastNoSep(x: string, sep: char, t: string)
    requires sep !in t
    ensures AfterLast(x + t, sep) == AfterLast(x, sep) + t
    decreases |t|
  {
    if t == [] {
      assert x + t == x;
    } else {
      var t' := t[..|t| - 1];
      assert t == t' + [t[|t| - 1]];
      assert (x + t)[..|x + t| - 1] == x + t';
      AfterLastNoSep(x, sep, t');
    }
  }

  /** Whatever precedes the last separator plays no part. */
  lemma AfterLastSep(x: string, sep: char, t: string)
    requires sep !in t
    ensures AfterLast(x + [sep] + t, sep) == t
  {
    AfterLastNoSep(x + [sep], sep, t);
  }

  /** The characters `String.prototype.trim` removes (ECMAScript WhiteSpace
      and LineTerminator). */
  predicate IsSpace(c: char)
  {
    c == ' ' || c == '\t' || c == '\n' || c == '\r' || c == '\U{B}' || c == '\U{C}'
    || c == '\U{A0}' || c == '\U{1680}' || ('\U{2000}' <= c <= '\U{200A}')
    || c == '\U{2028}' || c == '\U{2029}' || c == '\U{202F}' || c == '\U{205F}'
    || c == '\U{3000}' || c == '\U{FEFF}'
  }

  /** `s.trimStart()`. */
  function TrimStart(s: string): (r: string)
    ensures |r| <= |s|
  {
    if s != [] && IsSpace(s[0]) then TrimStart(s[1..]) else s
  }

  /** `s.trimEnd()`. */
  function TrimEnd(s: string): (r: string)
    ensures |r| <= |s|
  {
    if s != [] && IsSpace(s[|s| - 1]) then TrimEnd(s[..|s| - 1]) else s
  }

  /** `TrimStart` removes the leading white space and nothing else. */
  lemma {:induction false} TrimStartRemovesSpace(s: string)
    ensures var r := TrimStart(s);
      (forall k {:trigger r[k]} :: 0 <= k < |r| ==> r[k] == s[|s| - |r| + k])
      && (r == [] || !IsSpace(r[0]))
      && forall k :: 0 <= k < |s| - |r| ==> IsSpace(s[k])
  {
    if s != [] && IsSpace(s[0]) {
      TrimStartRemovesSpace(s[1..]);
    }
  }

  /** `TrimEnd` removes the trailing white space and nothing else. */
  lemma {:induction false} TrimEndRemovesSpace(s: string)
    ensures var r := TrimEnd(s);
      (forall k {:trigger r[k]} :: 0 <= k < |r| ==> r[k] == s[k])
      && (r == [] || !IsSpace(r[|r| - 1]))
      && forall k :: |r| <= k < |s| ==> IsSpace(s[k])
  {
    if s != [] && IsSpace(s[|s| - 1]) {
      TrimEndRemovesSpace(s[..|s| - 1]);
    }
  }

  /** `s.trim()`. */
  function Trim(s: string): string
  {
    TrimEnd(TrimStart(s))
  }

  /** Leading white space does not change the trimmed text. */
  lemma TrimSkipsSpace(c: char, s: string)
    requires IsSpace(c)
    ensures Trim([c] + s) == Trim(s)
  {
    assert ([c] + s)[1..] == s;
  }

  /** Text with no white space at either end is its own trim. */
  lemma TrimKeeps(s: string)
    requires s == [] || (!IsSpace(s[0]) && !IsSpace(s[|s| - 1]))
    ensures Trim(s) == s
  {
  }

  /** A message without the separator and without white space at either end
      comes through `split(sep)[0]` and `trim` unchanged. */
  lemma PlainSegment(m: string, sep: char)
    requires sep !in m
    requires m == [] || (!IsSpace(m[0]) && !IsSpace(m[|m| - 1]))
    ensures Trim(BeforeFirst(m, sep)) == m
  {
    BeforeFirstIsPrefix(m, sep);
    assert BeforeFirst(m, sep) == m;
    TrimKeeps(m);
  }

  /** The decimal digit for `d`. */
  function DigitChar(d: nat): (c: char)
    requires d < 10
    ensures '0' <= c <= '9' && (c - '0') as int == d
  {
    ('0' as int + d) as char
  }

  /** The decimal digits of `n` without leading zeros, as `Number#toString` prints them. */
  function NatToString(n: nat): (r: string)
    ensures |r| >= 1
    ensures forall k :: 0 <= k < |r| ==> '0' <= r[k] <= '9'
    ensures |r| > 1 ==> r[0] != '0'
  {
    if n < 10 then [DigitChar(n)] else NatToString(n / 10) + [DigitChar(n % 10)]
  }

  /** `n.toString()` for an integer-valued number. */
  function IntToString(n: int): string
  {
    if n < 0 then "-" + NatToString(-n) else NatToString(n)
  }

  /** The value of a string of decimal digits (the reading direction of `NatToString`). */
  function DigitsValue(s: string): nat
    requires forall k :: 0 <= k < |s| ==> '0' <= s[k] <= '9'
  {
    if s == [] then 0 else 10 * DigitsValue(s[..|s| - 1]) + (s[|s| - 1] - '0') as nat
  }

  /** Printing a natural number loses nothing: reading the digits back gives it again. */
  lemma {:induction false} NatToStringRoundTrip(n: nat)
    ensures DigitsValue(NatToString(n)) == n
  {
    var r := NatToString(n);
    if n >= 10 {
      var front := NatToString(n / 10);
      NatToStringRoundTrip(n / 10);
      assert r == front + [DigitChar(n % 10)];
      assert r[..|r| - 1] == front;
      assert DigitsValue(r) == 10 * DigitsValue(front) + n % 10;
    }
  }

  /** `s.padStart(width, c)`. */
  function PadStart(s: string, width: nat, c: char): (r: string)
    ensures |r| == if |s| >= width then |s| else width
    ensures r[|r| - |s|..] == s
    ensures forall k :: 0 <= k < |r| - |s| ==> r[k] == c
  {
    if |s| >= width then s else seq(width - |s|, _ => c) + s
  }
}
