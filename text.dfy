/**
 * Strings and number text: ASCII case mapping, the JavaScript and Java
 * notions of trimming, substring search, decimal rendering with two
 * fraction digits (`toFixed(2)`) and the decimal reading of `Number(text)`.
 * Amounts are integer cents throughout the model.
 */
module Text {

  predicate IsDigit(c: char) { '0' <= c <= '9' }
  predicate IsUpperAscii(c: char) { 'A' <= c <= 'Z' }
  predicate IsLowerAscii(c: char) { 'a' <= c <= 'z' }
  predicate IsAlnumAscii(c: char) { IsDigit(c) || IsUpperAscii(c) || IsLowerAscii(c) }

  function UpperChar(c: char): char {
    if IsLowerAscii(c) then (c as int - 32) as char else c
  }

  function LowerChar(c: char): char {
    if IsUpperAscii(c) then (c as int + 32) as char else c
  }

  /** `toUpperCase()` restricted to the ASCII letters. */
  function Upper(s: string): (r: string)
    ensures |r| == |s|
    ensures forall i :: 0 <= i < |s| ==> r[i] == UpperChar(s[i])
  {
    seq(|s|, i requires 0 <= i < |s| => UpperChar(s[i]))
  }

  /** `toLowerCase()` restricted to the ASCII letters. */
  function Lower(s: string): (r: string)
    ensures |r| == |s|
    ensures forall i :: 0 <= i < |s| ==> r[i] == LowerChar(s[i])
  {
    seq(|s|, i requires 0 <= i < |s| => LowerChar(s[i]))
  }

  /** A string that upper-cases to an all-capital word is that word up to the case of its letters. */
  lemma UpperOfUpper(s: string)
    ensures Upper(Upper(s)) == Upper(s)
  {
  }

  /** The characters JavaScript's `trim()` removes: white space and line terminators. */
  predicate IsJsSpace(c: char) {
    var n := c as int;
    n == 0x09 || n == 0x0A || n == 0x0B || n == 0x0C || n == 0x0D || n == 0x20 ||
    n == 0xA0 || n == 0x1680 || (0x2000 <= n <= 0x200A) || n == 0x2028 || n == 0x2029 ||
    n == 0x202F || n == 0x205F || n == 0x3000 || n == 0xFEFF
  }

  function TrimStart(s: string): (r: string)
    ensures |r| <= |s| && r == s[|s| - |r|..]
    ensures r != [] ==> !IsJsSpace(r[0])
    ensures forall i :: 0 <= i < |s| - |r| ==> IsJsSpace(s[i])
    decreases |s|
  {
    if |s| > 0 && IsJsSpace(s[0]) then TrimStart(s[1..]) else s
  }

  function TrimEnd(s: string): (r: string)
    ensures |r| <= |s| && r == s[..|r|]
    ensures r != [] ==> !IsJsSpace(r[|r| - 1])
    ensures forall i :: |r| <= i < |s| ==> IsJsSpace(s[i])
    decreases |s|
  {
    if |s| > 0 && IsJsSpace(s[|s| - 1]) then TrimEnd(s[..|s| - 1]) else s
  }

  /** JavaScript `trim()`. */
  function Trim(s: string): string {
    TrimEnd(TrimStart(s))
  }

  /** A JavaScript string trims to "" exactly when every character is white space. */
  lemma TrimEmpty(s: string)
    ensures Trim(s) == "" <==> forall i :: 0 <= i < |s| ==> IsJsSpace(s[i])
  {
    var t := TrimStart(s);
    if t != [] {
      assert t[0] == s[|s| - |t|];
    }
  }

  /** Java `String.trim()`: strips every leading and trailing character up to U+0020. */
  function JavaTrim(s: string): (r: string)
    ensures |r| <= |s|
    ensures r != [] ==> s[0] > ' ' || |r| < |s|
    decreases |s|
  {
    if |s| > 0 && s[0] <= ' ' then JavaTrim(s[1..])
    else if |s| > 0 && s[|s| - 1] <= ' ' then JavaTrim(s[..|s| - 1])
    else s
  }

  /** `s == null || s.trim().isEmpty()` on a present string: only characters up to U+0020. */
  lemma {:induction false} JavaTrimEmpty(s: string)
    ensures JavaTrim(s) == "" <==> forall i :: 0 <= i < |s| ==> s[i] <= ' '
    decreases |s|
  {
    if |s| > 0 && s[0] <= ' ' {
      JavaTrimEmpty(s[1..]);
      assert forall i :: 1 <= i < |s| ==> s[i] == s[1..][i - 1];
    } else if |s| > 0 && s[|s| - 1] <= ' ' {
      JavaTrimEmpty(s[..|s| - 1]);
    }
  }

  /** The Java test `s == null || s.trim().isEmpty()`. */
  predicate JavaBlank(s: string) {
    JavaTrim(s) == ""
  }

  /** `s.includes(sub)`: `sub` occurs at some position of `s`. */
  predicate Contains(s: string, sub: string)
    decreases |s|
  {
    sub <= s || (|s| > 0 && Contains(s[1..], sub))
  }

  /** Decimal digits of a natural number, with no leading zero. */
  function NatToString(n: nat): (r: string)
    ensures |r| >= 1
    ensures forall i :: 0 <= i < |r| ==> IsDigit(r[i])
    decreases n
  {
    if n < 10 then [('0' as int + n) as char]
    else NatToString(n / 10) + [('0' as int + n % 10) as char]
  }

  /** `String(n)` for an integer. */
  function IntToString(n: int): string {
    if n < 0 then "-" + NatToString(-n) else NatToString(n)
  }

  /** Two decimal digits for a value below 100. */
  function TwoDigits(n: nat): (r: string)
    requires n < 100
    ensures |r| == 2 && IsDigit(r[0]) && IsDigit(r[1])
  {
    [('0' as int + n / 10) as char, ('0' as int + n % 10) as char]
  }

  /** `(c / 100).toFixed(2)` for an amount of `c` cents. */
  function ToFixed2(c: int): string {
    var m := if c < 0 then -c else c;
    (if c < 0 then "-" else "") + NatToString(m / 100) + "." + TwoDigits(m % 100)
  }

  /** What `Number(text)` reads: not a number, or a finite amount in cents. */
  datatype Num = NaN | Finite(cents: int) {
    predicate IsFinite() { Finite? }
  }

  /** Value of a string of decimal digits. */
  function DigitsValue(s: string): nat
    requires forall i :: 0 <= i < |s| ==> IsDigit(s[i])
    decreases |s|
  {
    if |s| == 0 then 0
    else
      assert IsDigit(s[|s| - 1]);
      10 * DigitsValue(s[..|s| - 1]) + (s[|s| - 1] as int - '0' as int)
  }

  /** Length of the longest all-digit prefix. */
  function DigitRun(s: string): (k: nat)
    ensures k <= |s|
    ensures forall i :: 0 <= i < k ==> IsDigit(s[i])
    ensures k < |s| ==> !IsDigit(s[k])
    decreases |s|
  {
    if |s| > 0 && IsDigit(s[0]) then 1 + DigitRun(s[1..]) else 0
  }

  /** Reads `digits [ "." [d [d]] ]` as cents; anything else is not a number. */
  function ParseUnsigned(s: string): Num {
    var k := DigitRun(s);
    if k == 0 then NaN
    else
      var whole := DigitsValue(s[..k]) * 100;
      if k == |s| then Finite(whole)
      else if s[k] != '.' then NaN
      else
        var frac := s[k + 1..];
        if |frac| == 0 then Finite(whole)
        else if |frac| == 1 && IsDigit(frac[0]) then Finite(whole + 10 * (frac[0] as int - '0' as int))
        else if |frac| == 2 && IsDigit(frac[0]) && IsDigit(frac[1]) then Finite(whole + DigitsValue(frac))
        else NaN
  }

  /**
   * `Number(text)` on the decimal texts a form field holds: the empty
   * text reads as 0, an optional minus sign, digits and an optional
   * fraction of up to two digits read as cents, all else as NaN.
   */
  function ParseDecimal(s: string): Num {
    if s == "" then Finite(0)
    else if s[0] == '-' then
      match ParseUnsigned(s[1..])
      case Finite(c) => Finite(-c)
      case NaN => NaN
    else ParseUnsigned(s)
  }

  lemma {:induction false} DigitsOfNat(n: nat)
    ensures DigitsValue(NatToString(n)) == n
    decreases n
  {
    var r := NatToString(n);
    if n >= 10 {
      DigitsOfNat(n / 10);
      assert r[..|r| - 1] == NatToString(n / 10);
    }
  }

  lemma DigitRunPrefix(d: string, rest: string)
    requires forall i :: 0 <= i < |d| ==> IsDigit(d[i])
    requires rest != [] ==> !IsDigit(rest[0])
    ensures DigitRun(d + rest) == |d|
    decreases |d|
  {
    if |d| > 0 {
      assert (d + rest)[1..] == d[1..] + rest;
      DigitRunPrefix(d[1..], rest);
    }
  }

  /** Reading back a two-decimal rendering gives the amount: `Number(x.toFixed(2)) == x`. */
  lemma {:induction false} ParseToFixed2(c: int)
    ensures ParseDecimal(ToFixed2(c)) == Finite(c)
  {
    var m := if c < 0 then -c else c;
    var u := NatToString(m / 100) + "." + TwoDigits(m % 100);
    ParseFixedUnsigned(m);
    if c < 0 {
      assert ToFixed2(c) == "-" + u;
      assert ("-" + u)[1..] == u;
    } else {
      assert ToFixed2(c) == u;
    }
  }

  /** The unsigned rendering `whole "." two digits` reads back as the amount. */
  lemma ParseFixedUnsigned(m: nat)
    ensures ParseUnsigned(NatToString(m / 100) + "." + TwoDigits(m % 100)) == Finite(m)
  {
    var w := NatToString(m / 100);
    var f := TwoDigits(m % 100);
    ParseWholeDotFrac(w, f);
    DigitsOfNat(m / 100);
    TwoDigitsValue(m % 100);
  }

  lemma TwoDigitsValue(v: nat)
    requires v < 100
    ensures DigitsValue(TwoDigits(v)) == v
  {
    var f := TwoDigits(v);
    assert f[..1] == [f[0]];
    assert DigitsValue(f[..1]) == f[0] as int - '0' as int;
  }

  /** Digits, a point and two digits read as the whole part in hundreds plus the two digits. */
  lemma ParseWholeDotFrac(w: string, f: string)
    requires |w| >= 1 && forall i :: 0 <= i < |w| ==> IsDigit(w[i])
    requires |f| == 2 && IsDigit(f[0]) && IsDigit(f[1])
    ensures ParseUnsigned(w + "." + f) == Finite(DigitsValue(w) * 100 + DigitsValue(f))
  {
    var rest := "." + f;
    var u := w + rest;
    DigitRunPrefix(w, rest);
    assert u[..|w|] == w;
    assert u[|w| + 1..] == f;
    ParseUnsignedPoint(u, |w|);
    ConcatAssoc(w, ".", f);
  }

  lemma ConcatAssoc<T>(a: seq<T>, b: seq<T>, c: seq<T>)
    ensures a + b + c == a + (b + c)
  {
  }

  /** A digit run ended by a point and followed by two digits. */
  lemma ParseUnsignedPoint(u: string, k: nat)
    requires 0 < k && k + 3 == |u| && DigitRun(u) == k && u[k] == '.'
    requires IsDigit(u[k + 1]) && IsDigit(u[k + 2])
    ensures ParseUnsigned(u) == Finite(DigitsValue(u[..k]) * 100 + DigitsValue(u[k + 1..]))
  {
  }

  /** `parts.join(sep)`. */
  function Join(parts: seq<string>, sep: char): string
    decreases |parts|
  {
    if |parts| == 0 then ""
    else if |parts| == 1 then parts[0]
    else parts[0] + [sep] + Join(parts[1..], sep)
  }

  /** `s.split(sep)`; the empty string splits into one empty part. */
  function Split(s: string, sep: char): (r: seq<string>)
    ensures |r| >= 1
    decreases |s|
  {
    if |s| == 0 then [""]
    else if s[0] == sep then [""] + Split(s[1..], sep)
    else
      var rest := Split(s[1..], sep);
      [[s[0]] + rest[0]] + rest[1..]
  }

  /** `m` is the text of `s` before its first `sep`, or all of `s` when it has none. */
  predicate BeforeFirst(s: string, sep: char, m: string) {
    sep !in m && m <= s && (|m| == |s| || s[|m|] == sep)
  }

  /** The first part of a split is the text before the first separator. */
  lemma {:induction false} SplitFirst(s: string, sep: char)
    ensures BeforeFirst(s, sep, Split(s, sep)[0])
    decreases |s|
  {
    if |s| > 0 && s[0] != sep {
      SplitFirst(s[1..], sep);
      var m := Split(s[1..], sep)[0];
      assert Split(s, sep)[0] == [s[0]] + m;
      assert s == [s[0]] + s[1..];
    }
  }

  lemma {:induction false} SplitPart(p: string, sep: char, rest: string)
    requires sep !in p
    ensures Split(p + rest, sep) == if rest != [] && rest[0] == sep
      then [p] + Split(rest[1..], sep)
      else [p + Split(rest, sep)[0]] + Split(rest, sep)[1..]
    decreases |p|
  {
    var S := Split(rest, sep);
    assert S == [S[0]] + S[1..];
    if |p| > 0 {
      var q := p[1..];
      assert (p + rest)[0] == p[0] && p[0] != sep;
      assert (p + rest)[1..] == q + rest;
      SplitPart(q, sep, rest);
      var R := Split(q + rest, sep);
      assert Split(p + rest, sep) == [[p[0]] + R[0]] + R[1..];
      assert p == [p[0]] + q;
      if rest != [] && rest[0] == sep {
        assert R == [q] + Split(rest[1..], sep);
      } else {
        assert R == [q + S[0]] + S[1..];
        assert [p[0]] + (q + S[0]) == p + S[0];
      }
    } else {
      assert p + rest == rest;
      assert p + S[0] == S[0];
    }
  }

  /** Splitting a join recovers the parts, provided no part contains the separator. */
  lemma {:induction false} SplitJoin(parts: seq<string>, sep: char)
    requires |parts| >= 1
    requires forall i :: 0 <= i < |parts| ==> sep !in parts[i]
    ensures Split(Join(parts, sep), sep) == parts
    decreases |parts|
  {
    if |parts| == 1 {
      SplitPart(parts[0], sep, "");
      assert parts[0] + "" == parts[0];
    } else {
      var rest := [sep] + Join(parts[1..], sep);
      assert Join(parts, sep) == parts[0] + rest;
      SplitPart(parts[0], sep, rest);
      assert rest[1..] == Join(parts[1..], sep);
      SplitJoin(parts[1..], sep);
      assert parts == [parts[0]] + parts[1..];
    }
  }

  /** JavaScript's `a < b` on strings: code-unit lexicographic order, a proper prefix first. */
  predicate StrLt(a: string, b: string)
    decreases |a|
  {
    if |a| == 0 then |b| > 0
    else |b| > 0 && (a[0] < b[0] || (a[0] == b[0] && StrLt(a[1..], b[1..])))
  }

  lemma {:induction false} StrLtIrreflexive(a: string)
    ensures !StrLt(a, a)
    decreases |a|
  {
    if |a| > 0 {
      StrLtIrreflexive(a[1..]);
    }
  }

  lemma {:induction false} StrLtTrans(a: string, b: string, c: string)
    requires StrLt(a, b) && StrLt(b, c)
    ensures StrLt(a, c)
    decreases |a|
  {
    if |a| > 0 && a[0] == b[0] && b[0] == c[0] {
      StrLtTrans(a[1..], b[1..], c[1..]);
    }
  }

  /** Two different strings are ordered one way or the other. */
  lemma {:induction false} StrLtTotal(a: string, b: string)
    requires a != b
    ensures StrLt(a, b) || StrLt(b, a)
    decreases |a|
  {
    if |a| > 0 && |b| > 0 && a[0] == b[0] {
      assert a == [a[0]] + a[1..] && b == [b[0]] + b[1..];
      StrLtTotal(a[1..], b[1..]);
    }
  }
}
