/**
 * The few operations of Python's `str` that the backend relies on, written out
 * so that their edge cases are explicit: `strip()` (Unicode whitespace),
 * `strip(chars)`, `lower()`/`upper()` (ASCII letters only), `replace` of one
 * character, `re.sub(r"c+", "c", s)`, `split(sep)`, `split()`, `join` and `in`.
 */
module PyStr {

  /** `c.isspace()` in Python: ASCII whitespace, the separators 0x1C-0x1F and the Unicode spaces. */
  predicate IsSpace(c: char) {
    || ('\t' <= c <= '\r')
    || ('\U{1C}' <= c <= ' ')
    || c == '\U{85}' || c == '\U{A0}' || c == '\U{1680}'
    || ('\U{2000}' <= c <= '\U{200A}')
    || c == '\U{2028}' || c == '\U{2029}' || c == '\U{202F}' || c == '\U{205F}' || c == '\U{3000}'
  }

  predicate IsUnderscore(c: char) {
    c == '_'
  }

  /** Removes the leading characters that satisfy `p`: a suffix of `s`, and only `p`-characters go. */
  function TrimLeft(s: string, p: char -> bool): (r: string)
    ensures |r| <= |s| && r == s[|s| - |r|..]
    ensures r == [] || !p(r[0])
    ensures forall i :: 0 <= i < |s| - |r| ==> p(s[i])
  {
    if |s| > 0 && p(s[0]) then
      var r := TrimLeft(s[1..], p);
      assert s[1..][|s| - 1 - |r|..] == s[|s| - |r|..];
      assert forall i :: 1 <= i < |s| - |r| ==> s[1..][i - 1] == s[i];
      r
    else s
  }

  /** Removes the trailing characters that satisfy `p`: a prefix of `s`, and only `p`-characters go. */
  function TrimRight(s: string, p: char -> bool): (r: string)
    ensures |r| <= |s| && r == s[..|r|]
    ensures r == [] || !p(r[|r| - 1])
    ensures forall i :: |r| <= i < |s| ==> p(s[i])
  {
    if |s| > 0 && p(s[|s| - 1]) then
      var r := TrimRight(s[..|s| - 1], p);
      assert s[..|s| - 1][..|r|] == s[..|r|];
      assert forall i :: |r| <= i < |s| - 1 ==> s[..|s| - 1][i] == s[i];
      r
    else s
  }

  /** Neither starts nor ends with whitespace. */
  predicate Stripped(s: string) {
    s == [] || (!IsSpace(s[0]) && !IsSpace(s[|s| - 1]))
  }

  /** `s.strip()` */
  function Strip(s: string): (r: string)
    ensures Stripped(r)
  {
    TrimRight(TrimLeft(s, IsSpace), IsSpace)
  }

  /** `strip()` only removes characters: one absent from `s` is absent from the result. */
  lemma StripKeepsAbsent(s: string, c: char)
    requires c !in s
    ensures c !in Strip(s)
  {
    var t := TrimLeft(s, IsSpace);
    var r := TrimRight(t, IsSpace);
    assert forall i :: 0 <= i < |r| ==> r[i] == s[|s| - |t| + i];
  }

  /** Every character of `strip()`'s result comes from `s`. */
  lemma StripChars(s: string)
    ensures forall i :: 0 <= i < |Strip(s)| ==> Strip(s)[i] in s
  {
    var t := TrimLeft(s, IsSpace);
    var r := TrimRight(t, IsSpace);
    assert forall i :: 0 <= i < |r| ==> r[i] == s[|s| - |t| + i];
  }

  /** `s.strip("_")` */
  function StripUnderscores(s: string): string {
    TrimRight(TrimLeft(s, IsUnderscore), IsUnderscore)
  }

  lemma {:induction false} TrimLeftAll(s: string, p: char -> bool)
    requires forall i :: 0 <= i < |s| ==> p(s[i])
    ensures TrimLeft(s, p) == []
  {
    if |s| > 0 {
      TrimLeftAll(s[1..], p);
    }
  }

  /** A string with no surrounding whitespace is its own `strip()`. */
  lemma StripNoop(s: string)
    requires Stripped(s)
    ensures Strip(s) == s
  {
  }

  function LowerChar(c: char): char {
    if 'A' <= c <= 'Z' then (c as int + 32) as char else c
  }

  function UpperChar(c: char): char {
    if 'a' <= c <= 'z' then (c as int - 32) as char else c
  }

  /** `s.lower()`, restricted to the ASCII letters. */
  function Lower(s: string): (r: string)
    ensures |r| == |s|
    ensures forall i :: 0 <= i < |s| ==> r[i] == LowerChar(s[i])
  {
    seq(|s|, i requires 0 <= i < |s| => LowerChar(s[i]))
  }

  /** `s.upper()`, restricted to the ASCII letters. */
  function Upper(s: string): (r: string)
    ensures |r| == |s|
    ensures forall i :: 0 <= i < |s| ==> r[i] == UpperChar(s[i])
  {
    seq(|s|, i requires 0 <= i < |s| => UpperChar(s[i]))
  }

  /** A string without ASCII capitals is its own `lower()`. */
  lemma LowerNoop(s: string)
    requires forall i :: 0 <= i < |s| ==> !('A' <= s[i] <= 'Z')
    ensures Lower(s) == s
  {
  }

  predicate IsAsciiUpper(c: char) {
    'A' <= c <= 'Z'
  }

  /** `s.replace(a, b)` for one-character strings `a` and `b`. */
  function Replace(s: string, a: char, b: char): (r: string)
    ensures |r| == |s|
    ensures forall i :: 0 <= i < |s| ==> r[i] == if s[i] == a then b else s[i]
  {
    seq(|s|, i requires 0 <= i < |s| => if s[i] == a then b else s[i])
  }

  /** No two adjacent copies of `c`. */
  predicate NoDoubled(s: string, c: char) {
    forall i, j :: 0 <= i < |s| && j == i + 1 && j < |s| ==> !(s[i] == c && s[j] == c)
  }

  /** `re.sub(c + "+", c, s)`: every run of `c` becomes a single `c`. */
  function CollapseRuns(s: string, c: char): (r: string)
    ensures |s| > 0 ==> |r| > 0 && r[0] == s[0]
    ensures forall x :: x in r ==> x in s
    ensures NoDoubled(r, c)
  {
    if |s| == 0 then []
    else if |s| >= 2 && s[0] == c && s[1] == c then CollapseRuns(s[1..], c)
    else [s[0]] + CollapseRuns(s[1..], c)
  }

  lemma {:induction false} CollapseNoop(s: string, c: char)
    requires NoDoubled(s, c)
    ensures CollapseRuns(s, c) == s
  {
    if |s| > 0 {
      CollapseNoop(s[1..], c);
    }
  }

  /** `sub in s` */
  predicate Contains(s: string, sub: string) {
    exists i :: 0 <= i <= |s| && sub <= s[i..]
  }

  /** `s.startswith(prefix)` */
  predicate StartsWith(s: string, prefix: string) {
    |prefix| <= |s| && s[..|prefix|] == prefix
  }

  /** `s.split(sep)` for a one-character separator: empty fields are kept, and `""` gives `[""]`. */
  function Split(s: string, sep: char): (r: seq<string>)
    ensures |r| >= 1
    ensures forall i :: 0 <= i < |r| ==> sep !in r[i]
  {
    if |s| == 0 then [""]
    else
      var rest := Split(s[1..], sep);
      if s[0] == sep then [""] + rest else [[s[0]] + rest[0]] + rest[1..]
  }

  /** `sep.join(parts)` */
  function Join(parts: seq<string>, sep: string): string {
    if |parts| == 0 then ""
    else if |parts| == 1 then parts[0]
    else parts[0] + sep + Join(parts[1..], sep)
  }

  /** Joining the fields of `s.split(sep)` with `sep` gives `s` back. */
  lemma {:induction false} JoinSplit(s: string, sep: char)
    ensures Join(Split(s, sep), [sep]) == s
  {
    if |s| > 0 {
      var rest := Split(s[1..], sep);
      JoinSplit(s[1..], sep);
      if s[0] == sep {
        assert Split(s, sep) == [""] + rest;
        assert ([""] + rest)[1..] == rest;
        assert s == [sep] + s[1..];
      } else {
        var parts := [[s[0]] + rest[0]] + rest[1..];
        assert Split(s, sep) == parts;
        assert parts[1..] == rest[1..];
        if |rest| == 1 {
          assert s == [s[0]] + s[1..];
        } else {
          assert Join(rest, [sep]) == rest[0] + [sep] + Join(rest[1..], [sep]);
          assert s == [s[0]] + s[1..];
        }
      }
    }
  }

  /** The longest prefix of `s` none of whose characters satisfies `p`. */
  function TakeUntil(s: string, p: char -> bool): (r: string)
    ensures |r| <= |s| && r == s[..|r|]
    ensures forall i :: 0 <= i < |r| ==> !p(r[i])
    ensures |r| < |s| ==> p(s[|r|])
  {
    if |s| > 0 && !p(s[0]) then [s[0]] + TakeUntil(s[1..], p) else []
  }

  /** No character of `s` is whitespace. */
  predicate IsWord(s: string) {
    |s| > 0 && forall i :: 0 <= i < |s| ==> !IsSpace(s[i])
  }

  /**
   * `s.split()`: the maximal runs of non-whitespace characters, in order. A
   * string starting with a non-blank character has a first word starting with it.
   */
  function Words(s: string): (r: seq<string>)
    ensures forall i :: 0 <= i < |r| ==> IsWord(r[i])
    ensures |s| > 0 && !IsSpace(s[0]) ==> |r| > 0 && |r[0]| > 0 && r[0][0] == s[0]
  {
    if |s| == 0 then []
    else
      var rest := Words(s[1..]);
      if IsSpace(s[0]) then rest
      else if |s| > 1 && !IsSpace(s[1]) then
        assert s[1..][0] == s[1];
        [[s[0]] + rest[0]] + rest[1..]
      else [[s[0]]] + rest
  }

  function Digit(d: nat): char
    requires d < 10
  {
    ('0' as int + d) as char
  }

  /** `str(n)` for a natural number. */
  function NatToString(n: nat): (r: string)
    ensures |r| > 0
    ensures forall i :: 0 <= i < |r| ==> '0' <= r[i] <= '9'
  {
    if n < 10 then [Digit(n)] else NatToString(n / 10) + [Digit(n % 10)]
  }

  /** `str(i)` for an integer. */
  function IntToString(i: int): string {
    if i < 0 then "-" + NatToString(-i) else NatToString(i)
  }
}
