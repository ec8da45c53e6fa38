/** String operations of Python's standard library that the core relies on:
    `str.strip`, `str.replace`, decimal formatting of integers, `int()` on a
    string and `"\n".join`. */
module Text {
  import opened Base

  /** Python's `str.isspace`: the characters that `str.strip()` and `int()` remove. */
  predicate IsSpace(c: char) {
    || ('\t' <= c <= '\r')
    || ('\U{1C}' <= c <= ' ')
    || c == '\U{85}' || c == '\U{A0}' || c == '\U{1680}'
    || ('\U{2000}' <= c <= '\U{200A}')
    || c == '\U{2028}' || c == '\U{2029}' || c == '\U{202F}' || c == '\U{205F}' || c == '\U{3000}'
  }

  /** `s.lstrip()`: the suffix of `s` left after its leading whitespace. */
  function TrimStart(s: string): (r: string)
    ensures |r| <= |s| && r == s[|s| - |r|..]
    ensures forall i :: 0 <= i < |s| - |r| ==> IsSpace(s[i])
    ensures |r| > 0 ==> !IsSpace(r[0])
  {
    if |s| > 0 && IsSpace(s[0]) then TrimStart(s[1..]) else s
  }

  /** `s.rstrip()`: the prefix of `s` left before its trailing whitespace. */
  function TrimEnd(s: string): (r: string)
    ensures |r| <= |s| && r == s[..|r|]
    ensures forall i :: |r| <= i < |s| ==> IsSpace(s[i])
    ensures |r| > 0 ==> !IsSpace(r[|r| - 1])
  {
    if |s| > 0 && IsSpace(s[|s| - 1]) then TrimEnd(s[..|s| - 1]) else s
  }

  /** `s.strip()`. */
  function Strip(s: string): (r: string)
    ensures |r| > 0 ==> !IsSpace(r[0]) && !IsSpace(r[|r| - 1])
    ensures |s| == 0 || (!IsSpace(s[0]) && !IsSpace(s[|s| - 1])) ==> r == s
  {
    TrimEnd(TrimStart(s))
  }

  /** Every character of `Strip(s)` is a character of `s`, at an offset fixed by the
      leading whitespace. */
  lemma StripIsSlice(s: string) returns (offset: nat)
    ensures offset + |Strip(s)| <= |s|
    ensures Strip(s) == s[offset..offset + |Strip(s)|]
  {
    var t := TrimStart(s);
    offset := |s| - |t|;
    assert Strip(s) == t[..|Strip(s)|];
  }

  /** Leading whitespace is all that `lstrip` removes. */
  lemma {:induction false} TrimStartPadded(pad: string, rest: string)
    requires forall i :: 0 <= i < |pad| ==> IsSpace(pad[i])
    requires |rest| > 0 && !IsSpace(rest[0])
    ensures TrimStart(pad + rest) == rest
  {
    if |pad| > 0 {
      assert (pad + rest)[1..] == pad[1..] + rest;
      TrimStartPadded(pad[1..], rest);
    } else {
      assert pad + rest == rest;
    }
  }

  /** Trailing whitespace is all that `rstrip` removes. */
  lemma {:induction false} TrimEndPadded(rest: string, pad: string)
    requires forall i :: 0 <= i < |pad| ==> IsSpace(pad[i])
    requires |rest| > 0 && !IsSpace(rest[|rest| - 1])
    ensures TrimEnd(rest + pad) == rest
  {
    if |pad| > 0 {
      assert (rest + pad)[..|rest + pad| - 1] == rest + pad[..|pad| - 1];
      TrimEndPadded(rest, pad[..|pad| - 1]);
    } else {
      assert rest + pad == rest;
    }
  }

  /** `strip` gives back a text that neither starts nor ends with whitespace,
      whatever whitespace surrounds it. */
  lemma StripPadded(before: string, core: string, after: string)
    requires forall i :: 0 <= i < |before| ==> IsSpace(before[i])
    requires forall i :: 0 <= i < |after| ==> IsSpace(after[i])
    requires |core| > 0 && !IsSpace(core[0]) && !IsSpace(core[|core| - 1])
    ensures Strip(before + core + after) == core
  {
    assert before + core + after == before + (core + after);
    TrimStartPadded(before, core + after);
    TrimEndPadded(core, after);
  }

  /** A text made only of whitespace strips to nothing. */
  lemma StripAllSpace(s: string)
    requires forall i :: 0 <= i < |s| ==> IsSpace(s[i])
    ensures Strip(s) == ""
  {
  }

  /** `s.replace("'", "").replace('"', "")`. */
  function RemoveQuotes(s: string): (r: string)
    ensures |r| <= |s|
    ensures forall i :: 0 <= i < |r| ==> r[i] != '\'' && r[i] != '"'
    ensures (forall i :: 0 <= i < |s| ==> s[i] != '\'' && s[i] != '"') ==> r == s
    ensures forall i :: 0 <= i < |r| ==> r[i] in s
  {
    if |s| == 0 then ""
    else (if s[0] == '\'' || s[0] == '"' then "" else [s[0]]) + RemoveQuotes(s[1..])
  }

  /** Removing quotes distributes over concatenation. */
  lemma {:induction false} RemoveQuotesAppend(a: string, b: string)
    ensures RemoveQuotes(a + b) == RemoveQuotes(a) + RemoveQuotes(b)
  {
    if |a| > 0 {
      assert (a + b)[1..] == a[1..] + b;
      RemoveQuotesAppend(a[1..], b);
    } else {
      assert a + b == b;
    }
  }

  /** The quotes around a text without quotes are all that is removed. */
  lemma RemoveSurroundingQuotes(q: char, core: string)
    requires q == '\'' || q == '"'
    requires forall k :: 0 <= k < |core| ==> core[k] != '\'' && core[k] != '"'
    ensures RemoveQuotes([q] + core + [q]) == core
  {
    RemoveQuotesAppend([q] + core, [q]);
    RemoveQuotesAppend([q], core);
    assert RemoveQuotes([q]) == "" by {
      assert [q][1..] == "";
    }
  }

  predicate IsDigit(c: char) {
    '0' <= c <= '9'
  }

  predicate AllDigits(s: string) {
    forall i :: 0 <= i < |s| ==> IsDigit(s[i])
  }

  predicate HasDigit(s: string) {
    exists i :: 0 <= i < |s| && IsDigit(s[i])
  }

  function DigitValue(c: char): (d: nat)
    requires IsDigit(c)
    ensures d < 10
  {
    c as int - '0' as int
  }

  function DigitChar(d: nat): (c: char)
    requires d < 10
    ensures IsDigit(c) && DigitValue(c) == d
  {
    ('0' as int + d) as char
  }

  /** The number that a run of ASCII digits denotes in decimal. */
  function DigitsValue(s: string): nat
    requires AllDigits(s)
  {
    if |s| == 0 then 0 else DigitsValue(s[..|s| - 1]) * 10 + DigitValue(s[|s| - 1])
  }

  /** `str(n)` for a natural number: its decimal digits, without leading zeros. */
  function NatToString(n: nat): (r: string)
    ensures |r| > 0 && AllDigits(r) && DigitsValue(r) == n
    ensures r[0] == '0' ==> n == 0
    decreases n
  {
    if n < 10 then [DigitChar(n)]
    else
      var r := NatToString(n / 10) + [DigitChar(n % 10)];
      assert r[..|r| - 1] == NatToString(n / 10);
      r
  }

  /** Decimal formatting is injective, so numbered pseudonyms are distinct. */
  lemma NatToStringInjective(a: nat, b: nat)
    requires NatToString(a) == NatToString(b)
    ensures a == b
  {
  }

  /** Python's `int(s)` for a string `s`, restricted to surrounding whitespace, an
      optional sign and ASCII digits. */
  function ParseInt(s: string): Option<int>
  {
    var t := Strip(s);
    if |t| > 0 && (t[0] == '-' || t[0] == '+') then
      if |t| > 1 && AllDigits(t[1..]) then
        var magnitude: int := DigitsValue(t[1..]);
        Some(if t[0] == '-' then -magnitude else magnitude)
      else None
    else if |t| > 0 && AllDigits(t) then Some(DigitsValue(t))
    else None
  }

  /** `int(str(n)) == n`. */
  lemma ParseIntOfDecimal(n: nat)
    ensures ParseInt(NatToString(n)) == Some(n)
  {
    var s := NatToString(n);
    assert !IsSpace(s[0]) && !IsSpace(s[|s| - 1]);
  }

  /** A string that `int()` accepts contains a digit. */
  lemma ParseIntNeedsDigit(s: string)
    requires ParseInt(s).Some?
    ensures HasDigit(s)
  {
    var offset := StripIsSlice(s);
    var t := Strip(s);
    assert |t| > 0;
    var k: nat;
    if t[0] == '-' || t[0] == '+' {
      assert |t| > 1 && AllDigits(t[1..]);
      assert IsDigit(t[1..][0]);
      k := 1;
    } else {
      assert AllDigits(t);
      k := 0;
    }
    assert IsDigit(t[k]);
    assert s[offset + k] == t[k];
  }

  /** `"\n".join(parts)`. */
  function JoinLines(parts: seq<string>): string
  {
    if |parts| == 0 then ""
    else if |parts| == 1 then parts[0]
    else parts[0] + "\n" + JoinLines(parts[1..])
  }

  lemma {:induction false} JoinLinesAppend(a: seq<string>, b: seq<string>)
    requires |a| > 0 && |b| > 0
    ensures JoinLines(a + b) == JoinLines(a) + "\n" + JoinLines(b)
  {
    if |a| == 1 {
      assert (a + b)[1..] == b;
    } else {
      assert (a + b)[1..] == a[1..] + b;
      JoinLinesAppend(a[1..], b);
    }
  }

  /** `sub` occurs in `s` starting at index `i`. */
  predicate OccursAt(s: string, sub: string, i: int) {
    0 <= i <= |s| - |sub| && s[i..i + |sub|] == sub
  }

  /** Python's `sub in s` for strings. */
  ghost predicate Contains(s: string, sub: string) {
    exists i :: OccursAt(s, sub, i)
  }

  predicate StartsWith(s: string, prefix: string) {
    |prefix| <= |s| && s[..|prefix|] == prefix
  }

  predicate EndsWith(s: string, suffix: string) {
    |suffix| <= |s| && s[|s| - |suffix|..] == suffix
  }

  lemma ContainsMiddle(pre: string, sub: string, post: string)
    ensures Contains(pre + sub + post, sub)
  {
    var s := pre + sub + post;
    assert OccursAt(s, sub, |pre|);
  }

  lemma ContainsTransitive(s: string, t: string, u: string)
    requires Contains(s, t) && Contains(t, u)
    ensures Contains(s, u)
  {
    var i :| OccursAt(s, t, i);
    var j :| OccursAt(t, u, j);
    forall k | 0 <= k < |u|
      ensures s[i + j + k] == u[k]
    {
      assert u[k] == t[j + k];
      assert t[j + k] == s[i + j + k];
    }
    assert s[i + j..i + j + |u|] == u;
    assert OccursAt(s, u, i + j);
  }

  /** Every part of a joined list occurs in the joined text. */
  lemma {:induction false} JoinLinesContains(parts: seq<string>, k: nat)
    requires k < |parts|
    ensures Contains(JoinLines(parts), parts[k])
  {
    if |parts| == 1 {
      ContainsMiddle("", parts[0], "");
      assert "" + parts[0] + "" == parts[0];
    } else if k == 0 {
      ContainsMiddle("", parts[0], "\n" + JoinLines(parts[1..]));
      assert "" + parts[0] + ("\n" + JoinLines(parts[1..])) == JoinLines(parts);
    } else {
      JoinLinesContains(parts[1..], k - 1);
      ContainsMiddle(parts[0] + "\n", JoinLines(parts[1..]), "");
      assert parts[0] + "\n" + JoinLines(parts[1..]) + "" == JoinLines(parts);
      ContainsTransitive(JoinLines(parts), JoinLines(parts[1..]), parts[k]);
    }
  }

  /** Joining a list whose tail is `tail` ends with the joined tail. */
  lemma JoinLinesEndsWith(head: seq<string>, tail: seq<string>)
    requires |head| > 0 && |tail| > 0
    ensures EndsWith(JoinLines(head + tail), JoinLines(tail))
    ensures StartsWith(JoinLines(head + tail), JoinLines(head))
  {
    JoinLinesAppend(head, tail);
  }
}
