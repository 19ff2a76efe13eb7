/** The JavaScript string primitives the site relies on, over `seq<char>`:
    `trim`, `split` on one character, `join`, `toLowerCase` (ASCII letters),
    `startsWith`, `parseInt` (decimal) and the decimal rendering of integers. */
module Text {
  import opened Common

  /** The code points JavaScript's `String.prototype.trim` removes: the
      WhiteSpace (TAB, VT, FF, ZWNBSP and every space separator) and
      LineTerminator (LF, CR, LS, PS) characters of ECMAScript. */
  predicate IsSpace(c: char) {
    c == ' ' || c == '\t' || c == '\n' || c == '\r' || c == '\U{000B}' || c == '\U{000C}'
    || c == '\U{00A0}' || c == '\U{1680}' || ('\U{2000}' <= c <= '\U{200A}')
    || c == '\U{2028}' || c == '\U{2029}' || c == '\U{202F}' || c == '\U{205F}'
    || c == '\U{3000}' || c == '\U{FEFF}'
  }

  predicate AllSpace(s: string) {
    forall i :: 0 <= i < |s| ==> IsSpace(s[i])
  }

  /** Neither the first nor the last character is white space. */
  predicate IsTrimmed(s: string) {
    |s| == 0 || (!IsSpace(s[0]) && !IsSpace(s[|s| - 1]))
  }

  /** `trimStart`: the suffix left after dropping leading white space. */
  function TrimStart(s: string): (r: string)
    ensures |r| <= |s|
    ensures |r| == 0 || !IsSpace(r[0])
  {
    if |s| > 0 && IsSpace(s[0]) then TrimStart(s[1..]) else s
  }

  /** What `trimStart` drops is white space, and what it keeps is a suffix. */
  lemma {:induction false} TrimStartSplits(s: string)
    ensures TrimStart(s) == s[|s| - |TrimStart(s)|..]
    ensures AllSpace(s[..|s| - |TrimStart(s)|])
  {
    if |s| > 0 && IsSpace(s[0]) {
      TrimStartSplits(s[1..]);
      var k := |s| - |TrimStart(s)|;
      assert s[1..][k - 1..] == s[k..];
    }
  }

  /** `trimEnd`: the prefix left after dropping trailing white space. */
  function TrimEnd(s: string): (r: string)
    ensures |r| <= |s|
    ensures |r| == 0 || !IsSpace(r[|r| - 1])
  {
    if |s| > 0 && IsSpace(s[|s| - 1]) then TrimEnd(s[..|s| - 1]) else s
  }

  /** What `trimEnd` drops is white space, and what it keeps is a prefix. */
  lemma {:induction false} TrimEndSplits(s: string)
    ensures TrimEnd(s) == s[..|TrimEnd(s)|]
    ensures AllSpace(s[|TrimEnd(s)|..])
  {
    if |s| > 0 && IsSpace(s[|s| - 1]) {
      var t := s[..|s| - 1];
      TrimEndSplits(t);
      var k := |TrimEnd(s)|;
      assert t[..k] == s[..k];
      assert forall i :: 0 <= i < |t| - k ==> s[k..][i] == t[k..][i];
    }
  }

  /** `trim`: the infix left after dropping white space at both ends. */
  function Trim(s: string): (r: string)
    ensures IsTrimmed(r)
    ensures |r| <= |s|
  {
    var t := TrimStart(s);
    var r := TrimEnd(t);
    TrimEndSplits(t);
    assert |r| > 0 ==> r[0] == t[0];
    r
  }

  /** `trim` adds no character: one absent from the text is absent from the result. */
  lemma TrimKeepsAbsent(s: string, c: char)
    requires c !in s
    ensures c !in Trim(s)
  {
    var t := TrimStart(s);
    TrimStartSplits(s);
    TrimEndSplits(t);
    AbsentFromSlice(s, c, |s| - |t|, |s|);
    AbsentFromSlice(t, c, 0, |TrimEnd(t)|);
  }

  lemma AbsentFromSlice(s: string, c: char, a: nat, b: nat)
    requires a <= b <= |s| && c !in s
    ensures c !in s[a..b]
  {
    forall i | 0 <= i < b - a
      ensures s[a..b][i] != c
    {
      assert s[a..b][i] == s[a + i];
    }
  }

  lemma {:induction false} TrimStartOfTrimmed(s: string)
    requires IsTrimmed(s)
    ensures TrimStart(s) == s
  {
  }

  lemma {:induction false} TrimEndOfTrimmed(s: string)
    requires IsTrimmed(s)
    ensures TrimEnd(s) == s
  {
  }

  /** Trimming text that is already trimmed changes nothing. */
  lemma TrimOfTrimmed(s: string)
    requires IsTrimmed(s)
    ensures Trim(s) == s
  {
    TrimStartOfTrimmed(s);
    TrimEndOfTrimmed(s);
  }

  /** White space put in front of a text is removed again by `trim`. */
  lemma {:induction false} TrimStartSpacePrefix(p: string, s: string)
    requires AllSpace(p)
    ensures TrimStart(p + s) == TrimStart(s)
  {
    if |p| > 0 {
      assert (p + s)[0] == p[0];
      assert (p + s)[1..] == p[1..] + s;
      TrimStartSpacePrefix(p[1..], s);
    } else {
      assert p + s == s;
    }
  }

  /** White space put after a text is removed again by `trim`. */
  lemma {:induction false} TrimEndSpaceSuffix(s: string, p: string)
    requires AllSpace(p)
    ensures TrimEnd(s + p) == TrimEnd(s)
    decreases |p|
  {
    if |p| > 0 {
      var q := p[..|p| - 1];
      assert (s + p)[|s + p| - 1] == p[|p| - 1];
      assert (s + p)[..|s + p| - 1] == s + q;
      TrimEndSpaceSuffix(s, q);
    } else {
      assert s + p == s;
    }
  }

  lemma TrimSpacePrefix(p: string, s: string)
    requires AllSpace(p)
    ensures Trim(p + s) == Trim(s)
  {
    TrimStartSpacePrefix(p, s);
    assert TrimStart(p + s) == TrimStart(s);
    assert Trim(p + s) == TrimEnd(TrimStart(p + s));
  }

  /** `startsWith`. */
  predicate StartsWith(s: string, prefix: string) {
    |prefix| <= |s| && s[..|prefix|] == prefix
  }

  /** The position of the first occurrence of `c` (`indexOf` when `c` occurs). */
  function IndexOf(s: string, c: char): (i: nat)
    requires c in s
    ensures i < |s| && s[i] == c && c !in s[..i]
  {
    if s[0] == c then 0 else 1 + IndexOf(s[1..], c)
  }

  /** `split` on a one-character separator: the pieces between separators,
      including empty ones, so there is always at least one piece. */
  function Split(s: string, sep: char): (parts: seq<string>)
    ensures |parts| >= 1
    ensures forall k :: 0 <= k < |parts| ==> sep !in parts[k]
    decreases |s|
  {
    if sep !in s then [s]
    else
      var i := IndexOf(s, sep);
      [s[..i]] + Split(s[i + 1..], sep)
  }

  /** `join`: the parts in order with `delim` between neighbours. */
  function Join(parts: seq<string>, delim: string): (s: string)
    ensures |parts| > 0 ==> StartsWith(s, parts[0])
  {
    if |parts| == 0 then ""
    else if |parts| == 1 then parts[0]
    else parts[0] + delim + Join(parts[1..], delim)
  }

  /** Splitting a text and joining the pieces with the separator gives the text back. */
  lemma {:induction false} JoinSplit(s: string, sep: char)
    ensures Join(Split(s, sep), [sep]) == s
    decreases |s|
  {
    if sep in s {
      var i := IndexOf(s, sep);
      var rest := s[i + 1..];
      JoinSplit(rest, sep);
      assert Split(s, sep) == [s[..i]] + Split(rest, sep);
      assert s == s[..i] + [sep] + rest;
    }
  }

  /** The first separator of `a + [sep] + b` is the one after `a` when `a` has none. */
  lemma {:induction false} IndexOfAfter(a: string, sep: char, b: string)
    requires sep !in a
    ensures IndexOf(a + [sep] + b, sep) == |a|
  {
    var s := a + [sep] + b;
    if |a| > 0 {
      assert s[0] == a[0];
      assert s[1..] == a[1..] + [sep] + b;
      IndexOfAfter(a[1..], sep, b);
    }
  }

  /** Splitting text with no separator in it and one separator after it. */
  lemma SplitAtSeparator(a: string, sep: char, b: string)
    requires sep !in a
    ensures Split(a + [sep] + b, sep) == [a] + Split(b, sep)
  {
    var s := a + [sep] + b;
    assert s[|a|] == sep;
    IndexOfAfter(a, sep, b);
    assert s[..|a|] == a;
    assert s[|a| + 1..] == b;
  }

  /** Joining pieces that contain no separator and splitting again gives the pieces back. */
  lemma {:induction false} SplitJoin(parts: seq<string>, sep: char)
    requires |parts| > 0
    requires forall k :: 0 <= k < |parts| ==> sep !in parts[k]
    ensures Split(Join(parts, [sep]), sep) == parts
  {
    if |parts| == 1 {
    } else {
      SplitJoin(parts[1..], sep);
      SplitAtSeparator(parts[0], sep, Join(parts[1..], [sep]));
      assert Join(parts, [sep]) == parts[0] + [sep] + Join(parts[1..], [sep]);
      assert parts == [parts[0]] + parts[1..];
    }
  }

  /** `toLowerCase` on one character: ASCII upper-case letters only. */
  function LowerChar(c: char): (d: char)
    ensures 'A' <= c <= 'Z' ==> 'a' <= d <= 'z' && d as int == c as int + 32
    ensures !('A' <= c <= 'Z') ==> d == c
  {
    if 'A' <= c <= 'Z' then (c as int + 32) as char else c
  }

  function ToLower(s: string): (r: string)
    ensures |r| == |s|
    ensures forall i :: 0 <= i < |s| ==> r[i] == LowerChar(s[i])
  {
    if |s| == 0 then "" else [LowerChar(s[0])] + ToLower(s[1..])
  }

  /** Lower-casing twice is lower-casing once. */
  lemma ToLowerIdempotent(s: string)
    ensures ToLower(ToLower(s)) == ToLower(s)
  {
    var t := ToLower(s);
    assert forall i :: 0 <= i < |t| ==> LowerChar(t[i]) == t[i];
  }

  predicate IsDigit(c: char) {
    '0' <= c <= '9'
  }

  predicate AllDigits(s: string) {
    forall i :: 0 <= i < |s| ==> IsDigit(s[i])
  }

  function DigitValue(c: char): (d: nat)
    requires IsDigit(c)
    ensures d < 10
  {
    c as int - '0' as int
  }

  function DigitChar(d: nat): (c: char)
    requires d < 10
    ensures IsDigit(c) && DigitValue(c) == d
  {
    ('0' as int + d) as char
  }

  /** The number a string of decimal digits denotes, most significant digit first. */
  function DigitsValue(s: string): nat
    requires AllDigits(s)
  {
    if |s| == 0 then 0 else 10 * DigitsValue(s[..|s| - 1]) + DigitValue(s[|s| - 1])
  }

  /** `String(n)` for a natural number: its shortest decimal digits. */
  function NatToDecimal(n: nat): (s: string)
    ensures |s| > 0 && AllDigits(s)
    ensures DigitsValue(s) == n
    ensures s[0] != '0' || n == 0
  {
    if n < 10 then [DigitChar(n)]
    else
      var s := NatToDecimal(n / 10) + [DigitChar(n % 10)];
      assert s[..|s| - 1] == NatToDecimal(n / 10);
      s
  }

  /** `String(n)` for an integer: a minus sign before the digits of a negative one. */
  function IntToDecimal(n: int): (s: string)
    ensures |s| > 0
    ensures n < 0 <==> s[0] == '-'
  {
    if n < 0 then "-" + NatToDecimal(-n) else NatToDecimal(n)
  }

  /** How many characters at the start of `s` are decimal digits. */
  function DigitRunLength(s: string): (k: nat)
    ensures k <= |s| && AllDigits(s[..k])
    ensures k < |s| ==> !IsDigit(s[k])
  {
    if |s| > 0 && IsDigit(s[0]) then
      var k := 1 + DigitRunLength(s[1..]);
      assert s[..k] == [s[0]] + s[1..][..k - 1];
      k
    else 0
  }

  /** What follows an optional leading `+` or `-`. */
  function Unsigned(t: string): string {
    if |t| > 0 && (t[0] == '-' || t[0] == '+') then t[1..] else t
  }

  /** `parseInt(s)` in base 10: leading white space is skipped, then an optional
      sign, then the longest run of digits; `None` stands for `NaN`, which
      results exactly when no digit follows the white space and the sign. */
  function ParseInt(s: string): (r: Option<int>)
    ensures r.None? <==> (var u := Unsigned(TrimStart(s)); |u| == 0 || !IsDigit(u[0]))
  {
    var t := TrimStart(s);
    var u := Unsigned(t);
    var k := DigitRunLength(u);
    var v: int := DigitsValue(u[..k]);
    if k == 0 then None
    else if |t| > 0 && t[0] == '-' then Some(-v)
    else Some(v)
  }

  /** The digit run of a string made only of digits is the whole string. */
  lemma {:induction false} DigitRunOfDigits(s: string)
    requires AllDigits(s)
    ensures DigitRunLength(s) == |s|
  {
    if |s| > 0 {
      assert IsDigit(s[0]);
      DigitRunOfDigits(s[1..]);
    }
  }

  /** `parseInt` reads back every integer written in decimal. */
  lemma ParseIntOfDecimal(n: int)
    ensures ParseInt(IntToDecimal(n)) == Some(n)
  {
    var s := IntToDecimal(n);
    var m: nat := if n < 0 then -n else n;
    var d := NatToDecimal(m);
    assert !IsSpace(s[0]);
    assert TrimStart(s) == s;
    if n < 0 {
      assert Unsigned(s) == d;
    } else {
      assert Unsigned(s) == d;
    }
    DigitRunOfDigits(d);
    assert d[..|d|] == d;
  }

  /** A digit string followed by a non-digit, or by nothing, has exactly its
      own digits as the digit run. */
  lemma {:induction false} DigitRunOfPrefix(d: string, tail: string)
    requires AllDigits(d)
    requires |tail| == 0 || !IsDigit(tail[0])
    ensures DigitRunLength(d + tail) == |d|
  {
    if |d| > 0 {
      assert (d + tail)[0] == d[0];
      assert (d + tail)[1..] == d[1..] + tail;
      DigitRunOfPrefix(d[1..], tail);
    } else {
      assert d + tail == tail;
    }
  }

  /** `parseInt` skips leading white space. */
  lemma ParseIntSkipsSpace(w: string, x: string)
    requires AllSpace(w)
    ensures ParseInt(w + x) == ParseInt(x)
  {
    TrimStartSpacePrefix(w, x);
  }

  /** `parseInt` on a text starting with a digit reads its digit run. */
  lemma ParseIntDigitsFirst(u: string, d: string)
    requires |u| > 0 && IsDigit(u[0])
    requires AllDigits(d) && DigitRunLength(u) == |d| && u[..|d|] == d
    ensures ParseInt(u) == Some(DigitsValue(d))
  {
    assert !IsSpace(u[0]);
    assert TrimStart(u) == u;
    assert Unsigned(u) == u;
  }

  /** `parseInt` on a sign and then a digit reads the digit run, negated
      after `-`. */
  lemma ParseIntSignFirst(t: string, d: string)
    requires |t| > 1 && (t[0] == '+' || t[0] == '-')
    requires AllDigits(d) && |d| > 0
    requires DigitRunLength(t[1..]) == |d| && t[1..][..|d|] == d
    ensures var v: int := DigitsValue(d);
            ParseInt(t) == if t[0] == '-' then Some(-v) else Some(v)
  {
    assert !IsSpace(t[0]);
    assert TrimStart(t) == t;
    assert Unsigned(t) == t[1..];
  }

  /** `parseInt` on a run of digits and then anything not starting with a
      digit: the value of the digits, leading zeros included; the rest of the
      text is ignored. */
  lemma ParseIntDigits(d: string, tail: string)
    requires AllDigits(d) && |d| > 0
    requires |tail| == 0 || !IsDigit(tail[0])
    ensures ParseInt(d + tail) == Some(DigitsValue(d))
  {
    var u := d + tail;
    DigitRunOfPrefix(d, tail);
    assert u[..|d|] == d;
    assert u[0] == d[0];
    ParseIntDigitsFirst(u, d);
  }

  /** The same after a sign character, negated after `-`. */
  lemma ParseIntSignedDigits(c: char, d: string, tail: string)
    requires c == '+' || c == '-'
    requires AllDigits(d) && |d| > 0
    requires |tail| == 0 || !IsDigit(tail[0])
    ensures var v: int := DigitsValue(d);
            ParseInt([c] + d + tail) == if c == '-' then Some(-v) else Some(v)
  {
    DigitRunOfPrefix(d, tail);
    SignedPieces(c, d, tail);
    ParseIntSignFirst([c] + d + tail, d);
  }

  /** The pieces of a signed digit text, kept apart from `ParseInt`'s context. */
  lemma SignedPieces(c: char, d: string, tail: string)
    ensures ([c] + d + tail)[0] == c
    ensures ([c] + d + tail)[1..] == d + tail
    ensures (d + tail)[..|d|] == d
  {
    assert ([c] + d + tail)[1..] == d + tail;
  }

  /** Concatenation regrouped, kept apart from `ParseInt`'s context. */
  lemma Regroup(w: string, sign: string, d: string, tail: string)
    ensures w + sign + d + tail == w + (sign + d + tail)
    ensures sign == "" ==> sign + d + tail == d + tail
  {
    assert w + sign + d + tail == w + (sign + d + tail);
  }

  /** `parseInt` on leading white space, an optional sign, a run of digits and
      then anything not starting with a digit reads the signed digits. */
  lemma ParseIntPrefix(w: string, sign: string, d: string, tail: string)
    requires AllSpace(w)
    requires sign == "" || sign == "+" || sign == "-"
    requires AllDigits(d) && |d| > 0
    requires |tail| == 0 || !IsDigit(tail[0])
    ensures ParseInt(w + sign + d + tail) == Some(if sign == "-" then -(DigitsValue(d) as int) else DigitsValue(d))
  {
    Regroup(w, sign, d, tail);
    ParseIntSkipsSpace(w, sign + d + tail);
    if sign == "" {
      ParseIntDigits(d, tail);
    } else {
      var c := sign[0];
      assert sign == [c];
      ParseIntSignedDigits(c, d, tail);
    }
  }
}
