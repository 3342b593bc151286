/** String helpers standing in for Python's `str.split`, `str.join`,
    `str.rstrip`, `str(int)` and the substring test `a in b`. */
module Strings {

  /** An octet. */
  type Byte = x: int | 0 <= x < 256

  /** `s.split(sep)` for a one-character separator: never an empty list. */
  function Split(s: string, sep: char): (parts: seq<string>)
    ensures |parts| >= 1
    ensures forall i | 0 <= i < |parts| :: sep !in parts[i]
    decreases |s|
  {
    if |s| == 0 then [""]
    else
      var rest := Split(s[1..], sep);
      if s[0] == sep then [""] + rest
      else [[s[0]] + rest[0]] + rest[1..]
  }

  /** `sep.join(parts)`. */
  function Join(parts: seq<string>, sep: char): string
    decreases |parts|
  {
    if |parts| == 0 then ""
    else if |parts| == 1 then parts[0]
    else parts[0] + [sep] + Join(parts[1..], sep)
  }

  /** A string without the separator splits into itself alone. */
  lemma {:induction false} SplitNoSep(s: string, sep: char)
    requires sep !in s
    ensures Split(s, sep) == [s]
    decreases |s|
  {
    if |s| > 0 {
      assert sep !in s[1..] by {
        forall i | 0 <= i < |s[1..]| ensures s[1..][i] != sep { assert s[1..][i] == s[i + 1]; }
      }
      SplitNoSep(s[1..], sep);
      assert [s[0]] + s[1..] == s;
    }
  }

  /** Splitting `a + sep + b` where `a` holds no separator gives `a` and then the split of `b`. */
  lemma {:induction false} SplitCons(a: string, sep: char, b: string)
    requires sep !in a
    ensures Split(a + [sep] + b, sep) == [a] + Split(b, sep)
    decreases |a|
  {
    var s := a + [sep] + b;
    if |a| == 0 {
      assert s[1..] == b;
    } else {
      assert s[1..] == a[1..] + [sep] + b;
      assert sep !in a[1..] by {
        forall i | 0 <= i < |a[1..]| ensures a[1..][i] != sep { assert a[1..][i] == a[i + 1]; }
      }
      SplitCons(a[1..], sep, b);
      assert [a[0]] + a[1..] == a;
    }
  }

  /** Python's `len(s.split(sep)) >= 2` holds exactly when the separator occurs. */
  lemma {:induction false} SplitHasTwoIff(s: string, sep: char)
    ensures |Split(s, sep)| >= 2 <==> sep in s
  {
    if sep in s {
      var i :| 0 <= i < |s| && s[i] == sep;
      var j := FirstIndex(s, sep, i);
      assert s == s[..j] + [sep] + s[j + 1..];
      SplitCons(s[..j], sep, s[j + 1..]);
    } else {
      SplitNoSep(s, sep);
    }
  }

  /** The first position of `c` in `s`, given that some position holds it. */
  function FirstIndex(s: string, c: char, w: nat): (j: nat)
    requires w < |s| && s[w] == c
    ensures j <= w && s[j] == c && c !in s[..j]
    decreases w
  {
    if c !in s[..w] then w
    else
      var k :| 0 <= k < w && s[..w][k] == c;
      FirstIndex(s, c, k)
  }

  /** Splitting a join of separator-free parts returns the parts. */
  lemma {:induction false} SplitJoin(parts: seq<string>, sep: char)
    requires |parts| >= 1
    requires forall i | 0 <= i < |parts| :: sep !in parts[i]
    ensures Split(Join(parts, sep), sep) == parts
    decreases |parts|
  {
    if |parts| == 1 {
      SplitNoSep(parts[0], sep);
    } else {
      SplitJoin(parts[1..], sep);
      SplitCons(parts[0], sep, Join(parts[1..], sep));
      assert [parts[0]] + parts[1..] == parts;
    }
  }

  /** Joining two non-empty lists puts exactly one separator between their joins. */
  lemma {:induction false} JoinAppend(a: seq<string>, b: seq<string>, sep: char)
    ensures Join(a + b, sep) ==
      if |a| == 0 then Join(b, sep)
      else if |b| == 0 then Join(a, sep)
      else Join(a, sep) + [sep] + Join(b, sep)
    decreases |a|
  {
    if |a| == 0 {
      assert a + b == b;
    } else if |b| == 0 {
      assert a + b == a;
    } else if |a| == 1 {
      assert (a + b)[1..] == b;
    } else {
      assert (a + b)[1..] == a[1..] + b;
      JoinAppend(a[1..], b, sep);
    }
  }

  /** The join of a non-empty list whose first part is non-empty is non-empty. */
  lemma JoinNonEmpty(parts: seq<string>, sep: char)
    requires |parts| >= 1 && parts[0] != ""
    ensures Join(parts, sep) != ""
  {
  }

  /** `s.rstrip(c)`: drop every trailing `c`. */
  function RStrip(s: string, c: char): (r: string)
    ensures |r| <= |s| && r == s[..|r|]
    ensures r == "" || r[|r| - 1] != c
    ensures forall i | |r| <= i < |s| :: s[i] == c
    decreases |s|
  {
    if |s| > 0 && s[|s| - 1] == c then RStrip(s[..|s| - 1], c) else s
  }

  /** `c * n`. */
  function Repeat(c: char, n: nat): (r: string)
    ensures |r| == n && forall i | 0 <= i < n :: r[i] == c
  {
    if n == 0 then "" else [c] + Repeat(c, n - 1)
  }

  /** `rstrip` removes exactly a run of trailing padding from text that does not end with it. */
  lemma {:induction false} RStripPadding(body: string, c: char, n: nat)
    requires body == "" || body[|body| - 1] != c
    ensures RStrip(body + Repeat(c, n), c) == body
    decreases n
  {
    var s := body + Repeat(c, n);
    if n == 0 {
      assert s == body;
    } else {
      assert s[..|s| - 1] == body + Repeat(c, n - 1);
      RStripPadding(body, c, n - 1);
    }
  }

  /** Python's `needle in hay` for strings. */
  predicate IsSubstring(needle: string, hay: string) {
    exists i | 0 <= i <= |hay| - |needle| :: OccursAt(needle, hay, i)
  }

  predicate OccursAt(needle: string, hay: string, i: int) {
    0 <= i <= |hay| - |needle| && hay[i..i + |needle|] == needle
  }

  /** Decimal digit for 0..9. */
  function DigitChar(d: int): (c: char)
    requires 0 <= d < 10
    ensures '0' <= c <= '9'
  {
    (48 + d) as char
  }

  /** Decimal rendering of a natural number, most significant digit first:
      only digits, no leading zero, and read back as a decimal numeral it is `n`. */
  function NatToString(n: nat): (s: string)
    ensures |s| >= 1 && forall i | 0 <= i < |s| :: '0' <= s[i] <= '9'
    ensures DigitsValue(s) == n
    ensures s[0] != '0' || s == "0"
  {
    if n < 10 then [DigitChar(n)]
    else
      var s := NatToString(n / 10) + [DigitChar(n % 10)];
      assert s[..|s| - 1] == NatToString(n / 10);
      s
  }

  /** Python's `str(i)` for an `int`: the decimal numeral of `i` without
      leading zeros, after a `-` exactly when `i` is negative. */
  function IntToString(i: int): (s: string)
    ensures |s| >= 1 && forall k | 0 <= k < |s| :: s[k] == '-' || '0' <= s[k] <= '9'
    ensures i >= 0 ==> (forall k | 0 <= k < |s| :: '0' <= s[k] <= '9') && DigitsValue(s) == i
    ensures i < 0 ==> |s| >= 2 && s[0] == '-' && (forall k | 1 <= k < |s| :: '0' <= s[k] <= '9') && DigitsValue(s[1..]) == -i
    ensures i >= 0 ==> s[0] != '0' || s == "0"
    ensures i < 0 ==> s[1] != '0'
  {
    if i < 0 then "-" + NatToString(-i) else NatToString(i)
  }

  /** The value of a string of decimal digits. */
  function DigitsValue(s: string): nat
    requires forall i | 0 <= i < |s| :: '0' <= s[i] <= '9'
  {
    if |s| == 0 then 0 else DigitsValue(s[..|s| - 1]) * 10 + (s[|s| - 1] as int - 48)
  }
}
