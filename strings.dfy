/** The JavaScript string operations the request pipeline relies on, over `seq<char>`. */
module Strings {

  /** `s.startsWith(prefix)`. */
  predicate StartsWith(s: string, prefix: string) {
    |prefix| <= |s| && s[..|prefix|] == prefix
  }

  /** `s.includes(sub)`: `sub` occurs somewhere in `s`. */
  predicate Includes(s: string, sub: string)
    decreases |s|
  {
    StartsWith(s, sub) || (|s| > 0 && Includes(s[1..], sub))
  }

  /** Whatever surrounds an occurrence, the occurrence is still found. */
  lemma {:induction false} IncludesInfix(a: string, b: string, c: string)
    ensures Includes(a + b + c, b)
  {
    if a == [] {
      assert (a + b + c)[..|b|] == b;
    } else {
      assert (a + b + c)[1..] == a[1..] + b + c;
      IncludesInfix(a[1..], b, c);
    }
  }

  /** A text made of three parts starts with the first two and contains the last two. */
  lemma {:induction false} PartsIncluded(a: string, b: string, c: string)
    ensures StartsWith(a + b + c, a + b)
    ensures Includes(a + b + c, b) && Includes(a + b + c, c)
  {
    assert (a + b + c)[..|a + b|] == a + b;
    IncludesInfix(a, b, c);
    IncludesInfix(a + b, c, "");
    assert a + b + c + "" == a + b + c;
  }

  /** An occurrence in `s` is an occurrence in `s` with text added on either side. */
  lemma {:induction false} IncludesWiden(x: string, s: string, y: string, sub: string)
    requires Includes(s, sub)
    ensures Includes(x + s + y, sub)
    decreases |x|, |s|
  {
    if x != [] {
      assert (x + s + y)[1..] == x[1..] + s + y;
      IncludesWiden(x[1..], s, y, sub);
    } else if StartsWith(s, sub) {
      assert (x + s + y)[..|sub|] == s[..|sub|];
    } else {
      assert (x + s + y)[1..] == x + s[1..] + y;
      IncludesWiden(x, s[1..], y, sub);
    }
  }

  /** `s.substring(n)` for a non-negative `n`: everything from index `n` on, or "" when `s`
      is shorter than `n`. */
  function Drop(s: string, n: nat): (r: string)
    ensures n <= |s| ==> s == s[..n] + r
    ensures |s| <= n ==> r == ""
  {
    if |s| <= n then "" else s[n..]
  }

  /** `parts.join(sep)`: "" for no parts. */
  function Join(parts: seq<string>, sep: string): string
    decreases |parts|
  {
    if |parts| == 0 then ""
    else if |parts| == 1 then parts[0]
    else parts[0] + sep + Join(parts[1..], sep)
  }

  /** Joining never loses a part: every part occurs in the joined text. */
  lemma {:induction false} JoinIncludesPart(parts: seq<string>, sep: string, j: nat)
    requires j < |parts|
    ensures Includes(Join(parts, sep), parts[j])
    decreases |parts|
  {
    if |parts| == 1 {
      IncludesInfix("", parts[0], "");
      assert "" + parts[0] + "" == parts[0];
    } else if j == 0 {
      IncludesInfix("", parts[0], sep + Join(parts[1..], sep));
      assert "" + parts[0] + (sep + Join(parts[1..], sep)) == Join(parts, sep);
    } else {
      JoinIncludesPart(parts[1..], sep, j - 1);
      IncludesWiden(parts[0] + sep, Join(parts[1..], sep), "", parts[j]);
      assert parts[0] + sep + Join(parts[1..], sep) + "" == Join(parts, sep);
    }
  }

  /** The number of occurrences of `c` in `s`. */
  function Count(s: string, c: char): nat
    decreases |s|
  {
    if s == [] then 0 else (if s[0] == c then 1 else 0) + Count(s[1..], c)
  }

  /** `s.split(sep)` for a one-character separator: the maximal runs between separators,
      so "" gives [""] and "a," gives ["a", ""]. */
  function Split(s: string, sep: char): (parts: seq<string>)
    ensures |parts| > 0
    decreases |s|
  {
    if s == [] then [""]
    else
      var rest := Split(s[1..], sep);
      if s[0] == sep then [""] + rest
      else [[s[0]] + rest[0]] + rest[1..]
  }

  /** `k` separators give `k + 1` pieces. */
  lemma {:induction false} SplitCount(s: string, sep: char)
    ensures |Split(s, sep)| == Count(s, sep) + 1
    decreases |s|
  {
    if s != [] {
      SplitCount(s[1..], sep);
    }
  }

  /** No piece contains the separator. */
  lemma {:induction false} SplitPiecesFree(s: string, sep: char)
    ensures forall i, k :: 0 <= i < |Split(s, sep)| && 0 <= k < |Split(s, sep)[i]| ==> Split(s, sep)[i][k] != sep
    decreases |s|
  {
    if s != [] {
      SplitPiecesFree(s[1..], sep);
      var rest := Split(s[1..], sep);
      if s[0] != sep {
        var parts := Split(s, sep);
        assert parts[0] == [s[0]] + rest[0];
        forall i, k | 0 <= i < |parts| && 0 <= k < |parts[i]| ensures parts[i][k] != sep {
          if i == 0 {
            if k > 0 { assert parts[0][k] == rest[0][k - 1]; }
          } else {
            assert parts[i] == rest[i];
          }
        }
      }
    }
  }

  /** Splitting loses nothing: joining the pieces with the separator gives `s` back. */
  lemma {:induction false} SplitJoin(s: string, sep: char)
    ensures Join(Split(s, sep), [sep]) == s
    decreases |s|
  {
    if s != [] {
      SplitJoin(s[1..], sep);
      var rest := Split(s[1..], sep);
      if s[0] == sep {
        assert Split(s, sep)[1..] == rest;
        assert [sep] + Join(rest, [sep]) == s;
      } else {
        var parts := Split(s, sep);
        assert parts[1..] == rest[1..];
        if |rest| == 1 {
          assert parts == [[s[0]] + rest[0]];
        } else {
          assert Join(rest, [sep]) == rest[0] + [sep] + Join(rest[1..], [sep]);
          assert Join(parts, [sep]) == [s[0]] + rest[0] + [sep] + Join(rest[1..], [sep]);
        }
        assert s == [s[0]] + s[1..];
      }
    }
  }

  /** A text without the separator is one piece. */
  lemma {:induction false} SplitFree(a: string, sep: char)
    requires forall k :: 0 <= k < |a| ==> a[k] != sep
    ensures Split(a, sep) == [a]
    decreases |a|
  {
    if a != [] {
      SplitFree(a[1..], sep);
      assert [a[0]] + a[1..] == a;
    }
  }

  /** A separator-free text followed by the separator splits off as the first piece. */
  lemma {:induction false} SplitAfter(a: string, sep: char, rest: string)
    requires forall k :: 0 <= k < |a| ==> a[k] != sep
    ensures Split(a + [sep] + rest, sep) == [a] + Split(rest, sep)
    decreases |a|
  {
    var s := a + [sep] + rest;
    if a == [] {
      assert s[1..] == rest;
    } else {
      assert s[1..] == a[1..] + [sep] + rest;
      SplitAfter(a[1..], sep, rest);
      assert [a[0]] + a[1..] == a;
    }
  }

  /** Joining separator-free parts and splitting again gives the parts back. */
  lemma {:induction false} JoinSplit(parts: seq<string>, sep: char)
    requires |parts| > 0
    requires forall i, k :: 0 <= i < |parts| && 0 <= k < |parts[i]| ==> parts[i][k] != sep
    ensures Split(Join(parts, [sep]), sep) == parts
    decreases |parts|
  {
    if |parts| == 1 {
      SplitFree(parts[0], sep);
    } else {
      JoinSplit(parts[1..], sep);
      SplitAfter(parts[0], sep, Join(parts[1..], [sep]));
      assert [parts[0]] + parts[1..] == parts;
    }
  }

  /** The characters `String.prototype.trim` removes: ECMAScript WhiteSpace and LineTerminator. */
  predicate IsJsSpace(c: char) {
    c == ' ' || c == '\t' || c == '\n' || c == '\r' || c == '\U{000B}' || c == '\U{000C}'
    || c == '\U{00A0}' || c == '\U{FEFF}' || c == '\U{1680}' || ('\U{2000}' <= c <= '\U{200A}')
    || c == '\U{2028}' || c == '\U{2029}' || c == '\U{202F}' || c == '\U{205F}' || c == '\U{3000}'
  }

  /** `s` with its leading white space removed. */
  function TrimStart(s: string): (r: string)
    ensures |r| <= |s| && r == s[|s| - |r|..]
    ensures forall k :: 0 <= k < |s| - |r| ==> IsJsSpace(s[k])
    ensures r == [] || !IsJsSpace(r[0])
    decreases |s|
  {
    if s != [] && IsJsSpace(s[0]) then TrimStart(s[1..]) else s
  }

  /** `s` with its trailing white space removed. */
  function TrimEnd(s: string): (r: string)
    ensures |r| <= |s| && r == s[..|r|]
    ensures forall k :: |r| <= k < |s| ==> IsJsSpace(s[k])
    ensures r == [] || !IsJsSpace(r[|r| - 1])
    decreases |s|
  {
    if s != [] && IsJsSpace(s[|s| - 1]) then TrimEnd(s[..|s| - 1]) else s
  }

  /** `r` is `s` with white space only removed at its ends. */
  predicate TrimmedFrom(s: string, r: string) {
    exists i, j ::
      0 <= i <= j <= |s| && r == s[i..j]
      && (forall k :: 0 <= k < i ==> IsJsSpace(s[k])) && (forall k :: j <= k < |s| ==> IsJsSpace(s[k]))
  }

  /** Removing leading and then trailing white space keeps a middle slice of the text. */
  lemma TrimKeepsMiddle(s: string)
    ensures TrimmedFrom(s, TrimEnd(TrimStart(s)))
  {
    var t := TrimStart(s);
    var i := |s| - |t|;
    var r := TrimEnd(t);
    assert r == s[i..i + |r|];
    forall k | i + |r| <= k < |s|
      ensures IsJsSpace(s[k])
    {
      assert s[k] == t[k - i];
    }
  }

  /** `s.trim()`: the part of `s` left once the white space at both ends is removed. */
  function Trim(s: string): (r: string)
    ensures r == [] || (!IsJsSpace(r[0]) && !IsJsSpace(r[|r| - 1]))
    ensures TrimmedFrom(s, r)
  {
    TrimKeepsMiddle(s);
    TrimEnd(TrimStart(s))
  }

  predicate IsDigit(c: char) {
    '0' <= c <= '9'
  }

  predicate AllDigits(s: string) {
    forall i :: 0 <= i < |s| ==> IsDigit(s[i])
  }

  /** The regular expression `/^\d+$/` (JavaScript's `\d` is ASCII 0-9, and `$` without the
      `m` flag matches only at the end of the input). */
  predicate IsDigitString(s: string) {
    |s| > 0 && AllDigits(s)
  }

  /** The regular expression `/^\d{4}-\d{2}-\d{2}$/`: the shape of a date, not its validity. */
  predicate IsDateShape(s: string) {
    |s| == 10 && AllDigits(s[0..4]) && s[4] == '-' && AllDigits(s[5..7]) && s[7] == '-' && AllDigits(s[8..10])
  }

  /** The decimal value of a string of digits: `parseInt(s, 10)` on a string `/^\d+$/` accepts. */
  function DecimalValue(s: string): nat
    requires AllDigits(s)
    decreases |s|
  {
    if s == [] then 0 else DecimalValue(s[..|s| - 1]) * 10 + (s[|s| - 1] as int - '0' as int)
  }

  /** The decimal rendering of a natural number, as JavaScript's template literals print an
      integer (below 10^21). */
  function NatToString(n: nat): (s: string)
    ensures IsDigitString(s)
    ensures DecimalValue(s) == n
    ensures n > 0 ==> s[0] != '0'
  {
    var d := [('0' as int + n % 10) as char];
    if n < 10 then d
    else
      var init := NatToString(n / 10);
      assert (init + d)[..|init + d| - 1] == init;
      init + d
  }

  /** The decimal rendering of an integer, with a leading '-' when negative. */
  function IntToString(n: int): (s: string)
    ensures n >= 0 ==> s == NatToString(n)
    ensures n < 0 ==> s == "-" + NatToString(-n)
  {
    if n >= 0 then NatToString(n) else "-" + NatToString(-n)
  }
}
