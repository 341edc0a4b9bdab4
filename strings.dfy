/** The handful of Python `str` operations the analytics core relies on:
    `isspace`, `strip`, `lower`/`upper`/`title`, `split` on one character,
    `join`, `startswith`/`endswith`, the `in` substring test, slicing `[:n]`,
    `replace(" ", "")` and decimal formatting of a non-negative integer. */
module Strings {

  /** Python's `str.isspace()` for one character (the Unicode whitespace set). */
  predicate IsSpace(c: char) {
    c == ' ' || ('\t' <= c <= '\r') || ('\U{1c}' <= c <= '\U{1f}')
    || c == '\U{85}' || c == '\U{a0}' || c == '\U{1680}'
    || ('\U{2000}' <= c <= '\U{200a}') || c == '\U{2028}' || c == '\U{2029}'
    || c == '\U{202f}' || c == '\U{205f}' || c == '\U{3000}'
  }

  /** True when `line.strip()` is the empty string, i.e. Python treats the line as falsy after stripping. */
  predicate Blank(s: string) {
    forall i :: 0 <= i < |s| ==> IsSpace(s[i])
  }

  /** The end of the run of whitespace that starts at `i`. */
  function SpacesFrom(s: string, i: nat): (n: nat)
    requires i <= |s|
    ensures i <= n <= |s|
    ensures forall k :: i <= k < n ==> IsSpace(s[k])
    ensures n == |s| || !IsSpace(s[n])
    decreases |s| - i
  {
    if i == |s| || !IsSpace(s[i]) then i else SpacesFrom(s, i + 1)
  }

  /** The start of the run of whitespace that ends at `j`. */
  function SpacesUntil(s: string, j: nat): (n: nat)
    requires j <= |s|
    ensures n <= j
    ensures forall k :: n <= k < j ==> IsSpace(s[k])
    ensures n == 0 || !IsSpace(s[n - 1])
  {
    if j == 0 || !IsSpace(s[j - 1]) then j else SpacesUntil(s, j - 1)
  }

  /** `s.lstrip()` */
  function LStrip(s: string): (r: string)
    ensures |r| <= |s| && r == s[|s| - |r|..]
    ensures r == [] || !IsSpace(r[0])
    ensures Blank(s[..|s| - |r|])
  {
    var n := SpacesFrom(s, 0);
    assert forall k :: 0 <= k < n ==> s[..n][k] == s[k];
    s[n..]
  }

  /** `s.rstrip()` */
  function RStrip(s: string): (r: string)
    ensures |r| <= |s| && r == s[..|r|]
    ensures r == [] || !IsSpace(r[|r| - 1])
    ensures Blank(s[|r|..])
  {
    var n := SpacesUntil(s, |s|);
    assert forall k :: 0 <= k < |s| - n ==> s[n..][k] == s[n + k];
    s[..n]
  }

  /** `s.strip()` */
  function Strip(s: string): (r: string)
    ensures r == [] || (!IsSpace(r[0]) && !IsSpace(r[|r| - 1]))
  {
    RStrip(LStrip(s))
  }

  /** Stripping a string that has no surrounding whitespace leaves it as it is. */
  lemma {:induction false} StripNoop(s: string)
    requires s == [] || (!IsSpace(s[0]) && !IsSpace(s[|s| - 1]))
    ensures Strip(s) == s
  {
  }

  predicate IsUpperAscii(c: char) { 'A' <= c <= 'Z' }
  predicate IsLowerAscii(c: char) { 'a' <= c <= 'z' }
  predicate IsAsciiLetter(c: char) { IsUpperAscii(c) || IsLowerAscii(c) }

  function LowerChar(c: char): char {
    if IsUpperAscii(c) then (c as int + 32) as char else c
  }

  function UpperChar(c: char): char {
    if IsLowerAscii(c) then (c as int - 32) as char else c
  }

  /** `s.lower()` on the ASCII letters. */
  function Lower(s: string): (r: string)
    ensures |r| == |s|
  {
    seq(|s|, i requires 0 <= i < |s| => LowerChar(s[i]))
  }

  /** `s.upper()` on the ASCII letters. */
  function Upper(s: string): (r: string)
    ensures |r| == |s|
  {
    seq(|s|, i requires 0 <= i < |s| => UpperChar(s[i]))
  }

  /** `s.title()`: a letter that follows a letter is lowered, any other letter is raised. */
  function Title(s: string): (r: string)
    ensures |r| == |s|
  {
    seq(|s|, i requires 0 <= i < |s| =>
      if !IsAsciiLetter(s[i]) then s[i]
      else if i > 0 && IsAsciiLetter(s[i - 1]) then LowerChar(s[i])
      else UpperChar(s[i]))
  }

  predicate StartsWith(s: string, prefix: string) {
    |prefix| <= |s| && s[..|prefix|] == prefix
  }

  predicate EndsWith(s: string, suffix: string) {
    |suffix| <= |s| && s[|s| - |suffix|..] == suffix
  }

  lemma {:induction false} StartsWithConcat(a: string, b: string)
    ensures StartsWith(a + b, a)
  {
    assert (a + b)[..|a|] == a;
  }

  /** Python's `sub in s`. */
  predicate Contains(s: string, sub: string) {
    exists i :: 0 <= i <= |s| - |sub| && OccursAt(s, sub, i)
  }

  predicate OccursAt(s: string, sub: string, i: int)
    requires 0 <= i <= |s| - |sub|
  {
    s[i..i + |sub|] == sub
  }

  lemma {:induction false} ContainsInfix(a: string, b: string, c: string)
    ensures Contains(a + b + c, b)
  {
    var s := a + b + c;
    assert OccursAt(s, b, |a|);
  }

  /** `s[:n]` for a non-negative `n`. */
  function Take(s: string, n: nat): (r: string)
    ensures |r| == if n <= |s| then n else |s|
    ensures r == s[..|r|]
  {
    if n <= |s| then s[..n] else s
  }

  /** `c * n` for a one-character string `c`. */
  function Repeat(c: char, n: nat): (r: string)
    ensures |r| == n && forall i :: 0 <= i < n ==> r[i] == c
  {
    seq(n, _ => c)
  }

  /** `s.replace(c, "")` for one character `c`. */
  function Without(s: string, c: char): (r: string)
    ensures c !in r && |r| <= |s|
  {
    if s == [] then []
    else if s[0] == c then Without(s[1..], c)
    else [s[0]] + Without(s[1..], c)
  }

  /** `len(s.split())`: the number of maximal runs of non-whitespace
      characters, counted at the character that starts each run. */
  function WordCount(s: string): (n: nat)
    ensures n <= |s|
    ensures Blank(s) <==> n == 0
    decreases |s|
  {
    if |s| == 0 then 0
    else
      var init := s[..|s| - 1];
      var starts := !IsSpace(s[|s| - 1]) && (|s| == 1 || IsSpace(s[|s| - 2]));
      assert forall i :: 0 <= i < |init| ==> init[i] == s[i];
      WordCount(init) + (if starts then 1 else 0)
  }

  /** `s.split(sep)` for a one-character separator: never empty, and no part holds `sep`. */
  function Split(s: string, sep: char): (parts: seq<string>)
    ensures |parts| >= 1
    ensures forall k :: 0 <= k < |parts| ==> sep !in parts[k]
    decreases |s|
  {
    if |s| == 0 then [""]
    else if s[0] == sep then [""] + Split(s[1..], sep)
    else
      var rest := Split(s[1..], sep);
      [[s[0]] + rest[0]] + rest[1..]
  }

  /** `sep.join(parts)` */
  function Join(parts: seq<string>, sep: string): string {
    if |parts| == 0 then ""
    else if |parts| == 1 then parts[0]
    else parts[0] + sep + Join(parts[1..], sep)
  }

  /** Joining the pieces of a split with the same separator gives back the string. */
  lemma {:induction false} JoinSplit(s: string, sep: char)
    ensures Join(Split(s, sep), [sep]) == s
    decreases |s|
  {
    if |s| == 0 {
    } else if s[0] == sep {
      JoinSplit(s[1..], sep);
      var rest := Split(s[1..], sep);
      assert Split(s, sep) == [""] + rest;
      assert Join([""] + rest, [sep]) == "" + [sep] + Join(rest, [sep]);
      assert s == [sep] + s[1..];
    } else {
      JoinSplit(s[1..], sep);
      var rest := Split(s[1..], sep);
      if |rest| == 1 {
        assert Split(s, sep) == [[s[0]] + rest[0]];
        assert s == [s[0]] + s[1..];
      } else {
        assert Split(s, sep) == [[s[0]] + rest[0]] + rest[1..];
        assert Join(rest, [sep]) == rest[0] + [sep] + Join(rest[1..], [sep]);
        assert s == [s[0]] + s[1..];
      }
    }
  }

  /** Splitting a join of separator-free pieces gives back the pieces. */
  lemma {:induction false} SplitJoin(parts: seq<string>, sep: char)
    requires |parts| >= 1
    requires forall k :: 0 <= k < |parts| ==> sep !in parts[k]
    ensures Split(Join(parts, [sep]), sep) == parts
    decreases |parts|, |parts[0]|
  {
    if |parts[0]| == 0 {
      if |parts| == 1 {
      } else {
        SplitJoin(parts[1..], sep);
        var s := Join(parts, [sep]);
        assert s == [sep] + Join(parts[1..], [sep]);
        assert s[1..] == Join(parts[1..], [sep]);
        assert parts == [""] + parts[1..];
      }
    } else {
      var head := parts[0];
      var shorter := [head[1..]] + parts[1..];
      assert forall k :: 0 <= k < |shorter| ==> sep !in shorter[k] by {
        forall k | 0 <= k < |shorter| ensures sep !in shorter[k] {
          if k == 0 {
            assert forall j :: 0 <= j < |head[1..]| ==> head[1..][j] == head[j + 1];
          } else {
            assert shorter[k] == parts[k];
          }
        }
      }
      SplitJoin(shorter, sep);
      var t := Join(shorter, [sep]);
      var s := Join(parts, [sep]);
      assert s == [head[0]] + t by { JoinDropFirst(parts, sep); }
      assert head[0] in head;
      assert s[0] == head[0] && s[0] != sep;
      assert s[1..] == t;
      var rest := Split(t, sep);
      assert Split(s, sep) == [[s[0]] + rest[0]] + rest[1..];
      assert rest == shorter;
      assert [head[0]] + head[1..] == head;
    }
  }

  /** A join starts with the first character of its first part, followed by
      the join with that character removed. */
  lemma {:induction false} JoinDropFirst(parts: seq<string>, sep: char)
    requires |parts| >= 1 && |parts[0]| > 0
    ensures Join(parts, [sep]) == [parts[0][0]] + Join([parts[0][1..]] + parts[1..], [sep])
  {
    var head := parts[0];
    var shorter := [head[1..]] + parts[1..];
    assert head == [head[0]] + head[1..];
    if |parts| > 1 {
      assert shorter[1..] == parts[1..];
      var tail := [sep] + Join(parts[1..], [sep]);
      assert Join(parts, [sep]) == head + tail;
      assert Join(shorter, [sep]) == head[1..] + tail;
    }
  }

  function DigitChar(d: nat): char
    requires d < 10
  {
    ('0' as int + d) as char
  }

  predicate IsDigit(c: char) { '0' as int <= c as int <= '9' as int }

  /** `str(n)` for a non-negative integer: decimal digits, no leading zero. */
  function NatToString(n: nat): (r: string)
    ensures |r| >= 1
    ensures forall i :: 0 <= i < |r| ==> IsDigit(r[i])
    ensures r[0] == '0' ==> n == 0 && r == "0"
  {
    if n < 10 then [DigitChar(n)] else NatToString(n / 10) + [DigitChar(n % 10)]
  }

  /** The value of a string of decimal digits. */
  function DecimalValue(s: string): nat
    requires forall i :: 0 <= i < |s| ==> IsDigit(s[i])
  {
    if s == [] then 0
    else
      assert IsDigit(s[|s| - 1]);
      10 * DecimalValue(s[..|s| - 1]) + (s[|s| - 1] as int - '0' as int)
  }

  /** Reading back a formatted number gives the number. */
  lemma {:induction false} NatToStringRoundTrip(n: nat)
    ensures DecimalValue(NatToString(n)) == n
  {
    if n >= 10 {
      NatToStringRoundTrip(n / 10);
      var r := NatToString(n);
      assert r[..|r| - 1] == NatToString(n / 10);
    }
  }
}
