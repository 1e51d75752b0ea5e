/** String operations the modules rely on: prefix tests (`str.startswith`),
    the lowering `str.lower` applies before the scheme test, decimal rendering
    of integers (`str(int)`), and splitting and joining on a separator. */
module Text {

  /** `s.startswith(p)` */
  predicate HasPrefix(s: string, p: string) {
    |p| <= |s| && s[..|p|] == p
  }

  /** `t in s` for strings: `t` occurs somewhere in `s`. */
  predicate Contains(s: string, t: string) {
    exists i :: 0 <= i <= |s| && HasPrefix(s[i..], t)
  }

  lemma ContainsMiddle(a: string, t: string, b: string)
    ensures Contains(a + t + b, t)
  {
    var s := a + t + b;
    assert s[|a|..][..|t|] == t;
  }

  // ---------------------------------------------------------------------------
  // Lowering.

  predicate IsUpper(c: char) {
    'A' <= c <= 'Z'
  }

  function LowerChar(c: char): char {
    if IsUpper(c) then (c as int + 32) as char else c
  }

  /** `str.lower` restricted to ASCII letters. For the prefix tests the modules
      make (against `http`, `https`, `http:`, `https:`) this agrees with
      Python's full Unicode lowering: no character outside ASCII lowers to
      one of the letters of those prefixes or to `:`. */
  function Lower(s: string): string {
    seq(|s|, i requires 0 <= i < |s| => LowerChar(s[i]))
  }

  /** `p` holds no upper-case ASCII letter. */
  predicate LowerCaseText(p: string) {
    forall i :: 0 <= i < |p| ==> !IsUpper(p[i])
  }

  /** `c` is `l`, or the upper-case ASCII letter whose lower case is `l`. */
  predicate SameIgnoringCase(c: char, l: char) {
    c == l || ('a' <= l <= 'z' && c as int == l as int - 32)
  }

  /** Reference definition of a case-insensitive prefix test, character by
      character, with no lowering of the whole string. */
  predicate PrefixIgnoringCase(s: string, p: string) {
    |p| <= |s| && forall i :: 0 <= i < |p| ==> SameIgnoringCase(s[i], p[i])
  }

  lemma LowerCharMatches(c: char, l: char)
    requires !IsUpper(l)
    ensures LowerChar(c) == l <==> SameIgnoringCase(c, l)
  {
  }

  /** Lowering and then testing a lower-case prefix is the same as testing the
      prefix letter by letter ignoring case. */
  lemma LowerPrefix(s: string, p: string)
    requires LowerCaseText(p)
    ensures HasPrefix(Lower(s), p) <==> PrefixIgnoringCase(s, p)
  {
    var l := Lower(s);
    if |p| <= |s| {
      forall i | 0 <= i < |p|
        ensures l[i] == p[i] <==> SameIgnoringCase(s[i], p[i])
      {
        LowerCharMatches(s[i], p[i]);
      }
      if HasPrefix(l, p) {
        forall i | 0 <= i < |p| ensures l[i] == p[i] {
          assert l[..|p|][i] == l[i];
        }
      }
      if PrefixIgnoringCase(s, p) {
        assert l[..|p|] == p;
      }
    }
  }

  // ---------------------------------------------------------------------------
  // Decimal rendering, as `str(n)` and `"{0}".format(n)` produce it.

  predicate IsDigit(c: char) {
    '0' <= c <= '9'
  }

  predicate IsDigits(s: string) {
    forall i :: 0 <= i < |s| ==> IsDigit(s[i])
  }

  function DigitChar(d: nat): char
    requires d < 10
  {
    ('0' as int + d) as char
  }

  function DigitValue(c: char): nat
    requires IsDigit(c)
  {
    c as int - '0' as int
  }

  function NatToString(n: nat): (r: string)
    ensures |r| >= 1
    ensures IsDigits(r)
    decreases n
  {
    if n < 10 then [DigitChar(n)] else NatToString(n / 10) + [DigitChar(n % 10)]
  }

  /** Reads a decimal numeral back; the inverse of `NatToString`. */
  function ParseNat(s: string): nat
    requires IsDigits(s)
    decreases |s|
  {
    if s == [] then 0 else ParseNat(s[..|s| - 1]) * 10 + DigitValue(s[|s| - 1])
  }

  lemma {:induction false} ParseNatToString(n: nat)
    ensures ParseNat(NatToString(n)) == n
    decreases n
  {
    if n >= 10 {
      var r := NatToString(n);
      assert r[..|r| - 1] == NatToString(n / 10);
      ParseNatToString(n / 10);
    }
  }

  /** `str(i)` for a Python `int`. */
  function IntToString(i: int): string {
    if i < 0 then "-" + NatToString(-i) else NatToString(i)
  }

  /** Reads a possibly negative decimal numeral back. */
  function ParseInt(s: string): int
    requires |s| >= 1
    requires IsDigits(s) || (s[0] == '-' && IsDigits(s[1..]))
  {
    if s[0] == '-' then -(ParseNat(s[1..]) as int) else ParseNat(s)
  }

  /** `IntToString` loses nothing: the numeral reads back as the integer,
      and only negative integers get a sign. */
  lemma IntToStringRoundTrip(i: int)
    ensures var r := IntToString(i);
      && |r| >= 1
      && (r[0] == '-' <==> i < 0)
      && (IsDigits(r) || (r[0] == '-' && IsDigits(r[1..])))
      && ParseInt(r) == i
  {
    var r := IntToString(i);
    if i < 0 {
      assert r[1..] == NatToString(-i);
      ParseNatToString(-i);
    } else {
      ParseNatToString(i);
    }
  }

  // ---------------------------------------------------------------------------
  // Splitting and joining on a separator (`str.split(sep)`, `sep.join(parts)`).

  function Split(s: string, sep: char): (parts: seq<string>)
    ensures |parts| >= 1
    ensures forall i :: 0 <= i < |parts| ==> sep !in parts[i]
    decreases |s|
  {
    if s == [] then [""]
    else
      var rest := Split(s[1..], sep);
      if s[0] == sep then [""] + rest
      else [[s[0]] + rest[0]] + rest[1..]
  }

  function Join(parts: seq<string>, sep: char): string
    requires |parts| >= 1
    decreases |parts|
  {
    if |parts| == 1 then parts[0] else parts[0] + [sep] + Join(parts[1..], sep)
  }

  lemma {:induction false} SplitWhole(a: string, sep: char)
    requires sep !in a
    ensures Split(a, sep) == [a]
    decreases |a|
  {
    if a != [] {
      SplitWhole(a[1..], sep);
      assert [a[0]] + a[1..] == a;
    }
  }

  lemma {:induction false} SplitAfterSegment(a: string, sep: char, b: string)
    requires sep !in a
    ensures Split(a + [sep] + b, sep) == [a] + Split(b, sep)
    decreases |a|
  {
    var s := a + [sep] + b;
    if a == [] {
      assert s[1..] == b;
    } else {
      assert s[0] == a[0];
      assert s[1..] == a[1..] + [sep] + b;
      SplitAfterSegment(a[1..], sep, b);
      assert [a[0]] + a[1..] == a;
    }
  }

  /** Splitting undoes joining when no part holds the separator. */
  lemma {:induction false} SplitJoin(parts: seq<string>, sep: char)
    requires |parts| >= 1
    requires forall i :: 0 <= i < |parts| ==> sep !in parts[i]
    ensures Split(Join(parts, sep), sep) == parts
    decreases |parts|
  {
    if |parts| == 1 {
      SplitWhole(parts[0], sep);
    } else {
      SplitJoin(parts[1..], sep);
      SplitAfterSegment(parts[0], sep, Join(parts[1..], sep));
      assert [parts[0]] + parts[1..] == parts;
    }
  }
}
