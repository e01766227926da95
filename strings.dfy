/**
 * The handful of Python `str` operations the tools rely on: `strip`, `lower`,
 * `upper`, `startswith`, `endswith`, `in`, `split`, `join`, `replace`, `int()`,
 * `str()` of an integer and the ordering of strings. Case mapping and
 * whitespace are the ASCII part of Python's Unicode tables.
 */
module Strings {
  import opened Wrappers

  /**
   * The ASCII characters Python's `str.strip()` removes: space, tab, line feed,
   * vertical tab, form feed, carriage return and the four separators 0x1C-0x1F.
   */
  predicate IsSpace(c: char) {
    c == ' ' || c == '\t' || c == '\n' || c == '\r' || c == '\U{B}' || c == '\U{C}'
    || '\U{1C}' <= c <= '\U{1F}'
  }

  predicate IsDigit(c: char) {
    '0' <= c <= '9'
  }

  predicate AllDigits(s: string) {
    forall i :: 0 <= i < |s| ==> IsDigit(s[i])
  }

  // ---------------------------------------------------------------------------
  // strip

  /** `s.lstrip()`: drops the leading whitespace and nothing else (see `LStripFacts`). */
  function LStrip(s: string): string {
    if |s| > 0 && IsSpace(s[0]) then LStrip(s[1..]) else s
  }

  /** `s.rstrip()`: drops the trailing whitespace and nothing else (see `RStripFacts`). */
  function RStrip(s: string): string {
    if |s| > 0 && IsSpace(s[|s| - 1]) then RStrip(s[..|s| - 1]) else s
  }

  /** `lstrip` returns a suffix that starts with no whitespace, after only whitespace. */
  lemma {:induction false} LStripFacts(s: string)
    ensures |LStrip(s)| <= |s| && LStrip(s) == s[|s| - |LStrip(s)|..]
    ensures LStrip(s) == [] || !IsSpace(LStrip(s)[0])
    ensures forall i :: 0 <= i < |s| - |LStrip(s)| ==> IsSpace(s[i])
    decreases |s|
  {
    if |s| > 0 && IsSpace(s[0]) {
      LStripFacts(s[1..]);
    }
  }

  /** `rstrip` returns a prefix that ends with no whitespace, before only whitespace. */
  lemma {:induction false} RStripFacts(s: string)
    ensures |RStrip(s)| <= |s| && RStrip(s) == s[..|RStrip(s)|]
    ensures RStrip(s) == [] || !IsSpace(RStrip(s)[|RStrip(s)| - 1])
    ensures forall i :: |RStrip(s)| <= i < |s| ==> IsSpace(s[i])
    decreases |s|
  {
    if |s| > 0 && IsSpace(s[|s| - 1]) {
      RStripFacts(s[..|s| - 1]);
    }
  }

  /** `s.strip()`. */
  function Strip(s: string): (r: string)
    ensures r == [] || (!IsSpace(r[0]) && !IsSpace(r[|r| - 1]))
  {
    LStripFacts(s);
    RStripFacts(LStrip(s));
    RStrip(LStrip(s))
  }

  /** A string with no whitespace at either end is left alone by `strip`. */
  lemma {:induction false} StripUnchanged(s: string)
    requires s == [] || (!IsSpace(s[0]) && !IsSpace(s[|s| - 1]))
    ensures Strip(s) == s
  {
  }

  /** Stripping twice is stripping once. */
  lemma StripIdempotent(s: string)
    ensures Strip(Strip(s)) == Strip(s)
  {
    StripUnchanged(Strip(s));
  }

  /** A string is blank (Python: `not s.strip()`) exactly when every character is whitespace. */
  lemma {:induction false} BlankIffAllSpace(s: string)
    ensures Strip(s) == [] <==> forall i :: 0 <= i < |s| ==> IsSpace(s[i])
  {
    var l := LStrip(s);
    LStripFacts(s);
    RStripFacts(l);
    if Strip(s) == [] {
      assert l == [];
    } else {
      var r := Strip(s);
      assert r == l[..|r|];
      assert l[0] == s[|s| - |l|];
      assert !IsSpace(s[|s| - |l|]);
    }
  }

  // ---------------------------------------------------------------------------
  // lower, upper, replace

  function LowerChar(c: char): char {
    if 'A' <= c <= 'Z' then (c as int - 'A' as int + 'a' as int) as char else c
  }

  function UpperChar(c: char): char {
    if 'a' <= c <= 'z' then (c as int - 'a' as int + 'A' as int) as char else c
  }

  /** `s.lower()` */
  function Lower(s: string): (r: string)
    ensures |r| == |s|
    ensures forall i :: 0 <= i < |s| ==> r[i] == LowerChar(s[i])
  {
    seq(|s|, i requires 0 <= i < |s| => LowerChar(s[i]))
  }

  /** `s.upper()` */
  function Upper(s: string): (r: string)
    ensures |r| == |s|
    ensures forall i :: 0 <= i < |s| ==> r[i] == UpperChar(s[i])
  {
    seq(|s|, i requires 0 <= i < |s| => UpperChar(s[i]))
  }

  /** `s.replace(a, b)` for single characters. */
  function ReplaceChar(s: string, a: char, b: char): (r: string)
    ensures |r| == |s|
    ensures forall i :: 0 <= i < |s| ==> r[i] == (if s[i] == a then b else s[i])
  {
    seq(|s|, i requires 0 <= i < |s| => if s[i] == a then b else s[i])
  }

  lemma LowerAppend(a: string, b: string)
    ensures Lower(a + b) == Lower(a) + Lower(b)
  {
  }

  // ---------------------------------------------------------------------------
  // startswith, endswith, in

  predicate StartsWith(s: string, prefix: string) {
    |prefix| <= |s| && s[..|prefix|] == prefix
  }

  predicate EndsWith(s: string, suffix: string) {
    |suffix| <= |s| && s[|s| - |suffix|..] == suffix
  }

  /** `sub` occurs in `s` starting at index `i`. */
  predicate OccursAt(s: string, sub: string, i: int) {
    0 <= i && i + |sub| <= |s| && s[i..i + |sub|] == sub
  }

  /** Python's `sub in s`. */
  predicate Contains(s: string, sub: string) {
    exists i | 0 <= i <= |s| - |sub| :: OccursAt(s, sub, i)
  }

  /** A substring stays a substring when text is added on either side. */
  lemma ContainsExtended(p: string, s: string, q: string, sub: string)
    requires Contains(s, sub)
    ensures Contains(p + s + q, sub)
  {
    var i :| 0 <= i <= |s| - |sub| && OccursAt(s, sub, i);
    var t := p + s + q;
    assert t[|p| + i..|p| + i + |sub|] == s[i..i + |sub|];
    assert OccursAt(t, sub, |p| + i);
  }

  lemma ContainsAt(s: string, i: nat, sub: string)
    requires i + |sub| <= |s| && s[i..i + |sub|] == sub
    ensures Contains(s, sub)
  {
    assert OccursAt(s, sub, i);
  }

  // ---------------------------------------------------------------------------
  // split and join

  /** `sep.join(parts)` */
  function Join(parts: seq<string>, sep: string): string
  {
    if |parts| == 0 then ""
    else if |parts| == 1 then parts[0]
    else parts[0] + sep + Join(parts[1..], sep)
  }

  /**
   * `s.split(sep)` for a non-empty separator: the text between the
   * occurrences of `sep` found scanning left to right.
   */
  function Split(s: string, sep: string): (r: seq<string>)
    requires |sep| > 0
    ensures |r| >= 1
    decreases |s|
  {
    if |s| < |sep| then [s]
    else if s[..|sep|] == sep then [""] + Split(s[|sep|..], sep)
    else
      var rest := Split(s[1..], sep);
      [[s[0]] + rest[0]] + rest[1..]
  }

  /** Splitting loses nothing: joining the pieces with the separator gives the text back. */
  lemma {:induction false} JoinSplit(s: string, sep: string)
    requires |sep| > 0
    ensures Join(Split(s, sep), sep) == s
    decreases |s|
  {
    if |s| < |sep| {
    } else if s[..|sep|] == sep {
      JoinSplit(s[|sep|..], sep);
      JoinSplitAtSeparator(s, sep);
    } else {
      JoinSplit(s[1..], sep);
      JoinSplitPastChar(s, sep);
    }
  }

  /** The step of `JoinSplit` where the text starts with the separator. */
  lemma JoinSplitAtSeparator(s: string, sep: string)
    requires 0 < |sep| <= |s| && s[..|sep|] == sep
    requires Join(Split(s[|sep|..], sep), sep) == s[|sep|..]
    ensures Join(Split(s, sep), sep) == s
  {
    var t := s[|sep|..];
    var rest := Split(t, sep);
    assert Split(s, sep) == [""] + rest;
    JoinCons("", rest, sep);
    assert [] + sep == sep;
    assert s == s[..|sep|] + t;
  }

  /** The step of `JoinSplit` where the first character starts no separator. */
  lemma JoinSplitPastChar(s: string, sep: string)
    requires 0 < |sep| <= |s| && s[..|sep|] != sep
    requires Join(Split(s[1..], sep), sep) == s[1..]
    ensures Join(Split(s, sep), sep) == s
  {
    var rest := Split(s[1..], sep);
    assert Split(s, sep) == [[s[0]] + rest[0]] + rest[1..];
    JoinFirstExtended([s[0]], rest, sep);
    assert s == [s[0]] + s[1..];
  }

  /** Joining `[p] + rest` puts the separator between `p` and the join of `rest`. */
  lemma JoinCons(p: string, rest: seq<string>, sep: string)
    requires |rest| >= 1
    ensures Join([p] + rest, sep) == p + sep + Join(rest, sep)
  {
    assert ([p] + rest)[1..] == rest;
  }

  /** Prepending text to the first piece prepends it to the joined text. */
  lemma JoinFirstExtended(c: string, rest: seq<string>, sep: string)
    requires |rest| >= 1
    ensures Join([c + rest[0]] + rest[1..], sep) == c + Join(rest, sep)
  {
    var parts := [c + rest[0]] + rest[1..];
    if |rest| > 1 {
      assert parts[1..] == rest[1..];
    }
  }

  /** A piece free of the (one-character) separator comes back from `split` whole. */
  lemma {:induction false} SplitNoSeparator(p: string, c: char)
    requires c !in p
    ensures Split(p, [c]) == [p]
    decreases |p|
  {
    if |p| >= 1 {
      assert p[..1] == [p[0]];
      SplitNoSeparator(p[1..], c);
      assert [p[0]] + p[1..] == p;
    }
  }

  /** Splitting `p + c + t` at the one-character separator `c` cuts after `p` when `p` is free of `c`. */
  lemma {:induction false} SplitAfterPiece(p: string, c: char, t: string)
    requires c !in p
    ensures Split(p + [c] + t, [c]) == [p] + Split(t, [c])
    decreases |p|
  {
    var s := p + [c] + t;
    if |p| == 0 {
      assert s[..1] == [c];
      assert s[1..] == t;
    } else {
      assert s[..1] == [p[0]];
      assert s[1..] == p[1..] + [c] + t;
      SplitAfterPiece(p[1..], c, t);
      assert [p[0]] + p[1..] == p;
    }
  }

  /** With a one-character separator absent from every piece, `split` undoes `join`. */
  lemma {:induction false} SplitJoin(parts: seq<string>, c: char)
    requires |parts| >= 1
    requires forall i :: 0 <= i < |parts| ==> c !in parts[i]
    ensures Split(Join(parts, [c]), [c]) == parts
    decreases |parts|
  {
    if |parts| == 1 {
      SplitNoSeparator(parts[0], c);
    } else {
      SplitJoin(parts[1..], c);
      SplitAfterPiece(parts[0], c, Join(parts[1..], [c]));
      assert [parts[0]] + parts[1..] == parts;
    }
  }

  /** `sep` starts at none of the first `n` positions of `s`. */
  predicate FreeBefore(s: string, sep: string, n: int) {
    forall i :: 0 <= i < n ==> !OccursAt(s, sep, i)
  }

  /** Text in which the separator never starts comes back from `split` whole. */
  lemma {:induction false} SplitWhole(s: string, sep: string)
    requires |sep| > 0 && FreeBefore(s, sep, |s|)
    ensures Split(s, sep) == [s]
    decreases |s|
  {
    if |s| >= |sep| {
      assert !OccursAt(s, sep, 0);
      assert FreeBefore(s[1..], sep, |s| - 1) by {
        forall i | 0 <= i < |s| - 1
          ensures !OccursAt(s[1..], sep, i)
        {
          assert !OccursAt(s, sep, i + 1);
          if i + |sep| <= |s| - 1 {
            assert s[1..][i..i + |sep|] == s[i + 1..i + 1 + |sep|];
          }
        }
      }
      SplitWhole(s[1..], sep);
      assert [s[0]] + s[1..] == s;
    }
  }

  /** `split` cuts `p + sep + t` right after `p` when the separator starts nowhere in `p`. */
  lemma {:induction false} SplitAt(p: string, sep: string, t: string)
    requires |sep| > 0 && FreeBefore(p + sep + t, sep, |p|)
    ensures Split(p + sep + t, sep) == [p] + Split(t, sep)
    decreases |p|
  {
    var s := p + sep + t;
    if |p| == 0 {
      assert s[..|sep|] == sep;
      assert s[|sep|..] == t;
    } else {
      assert !OccursAt(s, sep, 0);
      assert s[1..] == p[1..] + sep + t;
      assert FreeBefore(s[1..], sep, |p| - 1) by {
        forall i | 0 <= i < |p| - 1
          ensures !OccursAt(s[1..], sep, i)
        {
          assert !OccursAt(s, sep, i + 1);
          if i + |sep| <= |s| - 1 {
            assert s[1..][i..i + |sep|] == s[i + 1..i + 1 + |sep|];
          }
        }
      }
      SplitAt(p[1..], sep, t);
      assert [p[0]] + p[1..] == p;
    }
  }

  /** Leading whitespace does not change what `strip` returns. */
  lemma StripLeadingSpace(c: char, s: string)
    requires IsSpace(c)
    ensures Strip([c] + s) == Strip(s)
  {
    assert ([c] + s)[1..] == s;
  }

  /** Trailing whitespace does not change what `strip` returns. */
  lemma {:induction false} StripTrailingSpace(s: string, c: char)
    requires IsSpace(c)
    ensures Strip(s + [c]) == Strip(s)
    decreases |s|
  {
    if |s| > 0 && IsSpace(s[0]) {
      assert (s + [c])[1..] == s[1..] + [c];
      StripTrailingSpace(s[1..], c);
    } else if |s| == 0 {
      assert s + [c] == [c] && [c][1..] == [];
      assert LStrip([c]) == [];
    } else {
      assert (s + [c])[..|s + [c]| - 1] == s;
    }
  }

  // ---------------------------------------------------------------------------
  // int() and str() of integers

  function DigitChar(d: nat): (c: char)
    requires d < 10
    ensures IsDigit(c) && c as int - '0' as int == d
  {
    ('0' as int + d) as char
  }

  function DigitValue(c: char): nat
    requires IsDigit(c)
  {
    c as int - '0' as int
  }

  /** The value of a run of decimal digits. */
  function DigitsValue(s: string): nat
    requires AllDigits(s)
  {
    if |s| == 0 then 0 else DigitsValue(s[..|s| - 1]) * 10 + DigitValue(s[|s| - 1])
  }

  /** `str(n)` for a natural number: its decimal digits, without leading zeros. */
  function NatToString(n: nat): (r: string)
    ensures |r| >= 1 && AllDigits(r)
    ensures |r| > 1 ==> r[0] != '0'
  {
    if n < 10 then [DigitChar(n)] else NatToString(n / 10) + [DigitChar(n % 10)]
  }

  /** `str(i)` for any integer. */
  function IntToString(i: int): (r: string)
    ensures |r| >= 1
  {
    if i < 0 then "-" + NatToString(-i) else NatToString(i)
  }

  /** The digits of `str(n)` read back as `n`. */
  lemma {:induction false} DigitsValueOfNatToString(n: nat)
    ensures DigitsValue(NatToString(n)) == n
  {
    if n >= 10 {
      DigitsValueOfNatToString(n / 10);
      var s := NatToString(n);
      assert s[..|s| - 1] == NatToString(n / 10);
    }
  }

  /** Python's integer literal syntax as `int()` reads it: an optional sign and at least one digit. */
  predicate IsIntLiteral(t: string) {
    if |t| > 0 && (t[0] == '-' || t[0] == '+') then |t| > 1 && AllDigits(t[1..])
    else |t| > 0 && AllDigits(t)
  }

  /**
   * `int(s)`: surrounding whitespace is ignored, then an optional sign and
   * decimal digits; anything else raises (`None` here).
   */
  function ParseInt(s: string): (r: Option<int>)
    ensures r.Some? <==> IsIntLiteral(Strip(s))
  {
    var t := Strip(s);
    if |t| > 0 && (t[0] == '-' || t[0] == '+') then
      if |t| > 1 && AllDigits(t[1..]) then
        var v: int := DigitsValue(t[1..]);
        Some(if t[0] == '-' then -v else v)
      else None
    else if |t| > 0 && AllDigits(t) then Some(DigitsValue(t))
    else None
  }

  /** `int(str(i)) == i`. */
  lemma IntRoundTrip(i: int)
    ensures ParseInt(IntToString(i)) == Some(i)
  {
    var s := IntToString(i);
    if i < 0 {
      var d := NatToString(-i);
      assert !IsSpace(d[|d| - 1]);
      StripUnchanged(s);
      assert s[1..] == d;
      DigitsValueOfNatToString(-i);
    } else {
      StripUnchanged(s);
      DigitsValueOfNatToString(i);
    }
  }

  /** A string holding a character that is neither a digit, whitespace nor a sign makes `int()` raise. */
  lemma NonNumericRejected(s: string, i: nat)
    requires i < |s| && !IsDigit(s[i]) && !IsSpace(s[i]) && s[i] != '-' && s[i] != '+'
    ensures ParseInt(s) == None
  {
    var l := LStrip(s);
    var t := Strip(s);
    LStripFacts(s);
    RStripFacts(l);
    assert i >= |s| - |l|;
    var j := i - (|s| - |l|);
    assert l[j] == s[i];
    assert j < |t|;
    assert t[j] == s[i];
    if t[0] == '-' || t[0] == '+' {
      assert j >= 1;
      assert t[1..][j - 1] == s[i];
    }
    assert !IsIntLiteral(t);
  }

  lemma DigitsAreLowerCase(s: string)
    requires AllDigits(s)
    ensures Lower(s) == s
  {
  }

  // ---------------------------------------------------------------------------
  // Python's ordering of strings: lexicographic by code point

  predicate LexLe(a: string, b: string) {
    |a| == 0 || (|b| > 0 && (a[0] < b[0] || (a[0] == b[0] && LexLe(a[1..], b[1..]))))
  }

  lemma {:induction false} LexLeTotal(a: string, b: string)
    ensures LexLe(a, b) || LexLe(b, a)
    decreases |a|
  {
    if |a| > 0 && |b| > 0 && a[0] == b[0] {
      LexLeTotal(a[1..], b[1..]);
    }
  }

  lemma {:induction false} LexLeTransitive(a: string, b: string, c: string)
    requires LexLe(a, b) && LexLe(b, c)
    ensures LexLe(a, c)
    decreases |a|
  {
    if |a| > 0 && a[0] == b[0] && b[0] == c[0] {
      LexLeTransitive(a[1..], b[1..], c[1..]);
    }
  }
}
