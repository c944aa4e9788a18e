/** The JavaScript built-ins the components rely on, on strings of
    characters: `parseInt` without a radix (section 19.2.5 of ECMAScript),
    the decimal rendering of an integer, `String.prototype.split` with a
    one-character separator and `Array.prototype.join`. Numbers are exact
    integers here; the rounding of a JavaScript Number is not modelled. */
module Js {
  import opened Thunk

  /** StrWhiteSpaceChar: the WhiteSpace and LineTerminator code points,
      including every space separator (category Zs): tab, line feed, vertical
      tab, form feed, carriage return, space, no-break space, ogham space mark,
      the en quad to hair space run, line and paragraph separator, narrow
      no-break space, medium mathematical space, ideographic space and the
      byte order mark. */
  predicate IsWhiteSpace(c: char) {
    ('\t' <= c <= '\r') || c == ' ' ||
    ('\U{00A0}' <= c &&
      (c == '\U{00A0}' || c == '\U{1680}' || ('\U{2000}' <= c <= '\U{200A}') ||
       c == '\U{2028}' || c == '\U{2029}' || c == '\U{202F}' || c == '\U{205F}' ||
       c == '\U{3000}' || c == '\U{FEFF}'))
  }

  /** The string with its leading white space removed. */
  function TrimStart(s: string): (r: string)
    ensures |r| <= |s| && r == s[|s| - |r|..]
    ensures r == [] || !IsWhiteSpace(r[0])
    ensures forall k :: 0 <= k < |s| - |r| ==> IsWhiteSpace(s[k])
  {
    if s != [] && IsWhiteSpace(s[0]) then TrimStart(s[1..]) else s
  }

  predicate IsDecimalDigit(c: char) {
    '0' <= c <= '9'
  }

  /** A digit of radix 10 or 16: `0`-`9`, and for 16 also `a`-`f` / `A`-`F`. */
  predicate IsDigitIn(c: char, radix: nat) {
    IsDecimalDigit(c) || (radix == 16 && ('a' <= c <= 'f' || 'A' <= c <= 'F'))
  }

  function DigitValue(c: char, radix: nat): (d: nat)
    requires IsDigitIn(c, radix)
    ensures radix == 10 || radix == 16 ==> d < radix
    ensures IsDecimalDigit(c) ==> d == c as int - '0' as int
  {
    if IsDecimalDigit(c) then c as int - '0' as int
    else if 'a' <= c <= 'f' then c as int - 'a' as int + 10
    else c as int - 'A' as int + 10
  }

  /** The longest prefix made only of digits of the radix. */
  function DigitPrefix(s: string, radix: nat): (z: string)
    ensures |z| <= |s| && z == s[..|z|]
    ensures forall k :: 0 <= k < |z| ==> IsDigitIn(z[k], radix)
    ensures |z| < |s| ==> !IsDigitIn(s[|z|], radix)
  {
    if s == [] || !IsDigitIn(s[0], radix) then [] else [s[0]] + DigitPrefix(s[1..], radix)
  }

  /** The value of a digit string, most significant digit first. */
  function Value(z: string, radix: nat): nat
    requires forall k :: 0 <= k < |z| ==> IsDigitIn(z[k], radix)
  {
    if z == [] then 0 else Value(z[..|z| - 1], radix) * radix + DigitValue(z[|z| - 1], radix)
  }

  /** `parseInt(s)`: skip leading white space, then read a signed number.
      None stands for NaN. */
  function ParseInt(s: string): Option<int> {
    ParseSigned(TrimStart(s))
  }

  /** One optional sign, then an unsigned number; a minus sign negates it. */
  function ParseSigned(t: string): Option<int> {
    if t != [] && t[0] == '-' then
      match ParseUnsigned(t[1..])
      case None => None
      case Some(v) => Some(-v)
    else if t != [] && t[0] == '+' then ParseUnsigned(t[1..])
    else ParseUnsigned(t)
  }

  /** Radix 16 after `0x` / `0X`, radix 10 otherwise, then the longest run of
      digits of that radix; None when that run is empty. */
  function ParseUnsigned(u: string): Option<int> {
    var hex := |u| >= 2 && u[0] == '0' && (u[1] == 'x' || u[1] == 'X');
    var radix := if hex then 16 else 10;
    var z := DigitPrefix(if hex then u[2..] else u, radix);
    if z == [] then None else Some(Value(z, radix))
  }

  /** `parseInt(s) || 0`: NaN (and 0) become 0; nothing else is changed, in
      particular no bound is imposed. */
  function ParseIntOrZero(s: string): int {
    match ParseInt(s)
    case None => 0
    case Some(n) => n
  }

  function DigitChar(d: nat): (c: char)
    requires d < 10
    ensures IsDecimalDigit(c) && DigitValue(c, 10) == d
  {
    ('0' as int + d) as char
  }

  /** The decimal digits of a natural number, without leading zeros. */
  function Digits(n: nat): (s: string)
    ensures s != [] && forall k :: 0 <= k < |s| ==> IsDecimalDigit(s[k])
    ensures n > 0 ==> s[0] != '0'
    ensures |s| > 1 ==> s[0] != '0'
  {
    if n < 10 then [DigitChar(n)] else Digits(n / 10) + [DigitChar(n % 10)]
  }

  /** `String(n)` for an integer: a minus sign exactly for a negative number,
      then a non-empty run of decimal digits. */
  function DecimalString(n: int): (s: string)
    ensures s != [] && (s[0] == '-' <==> n < 0)
    ensures forall k :: (if n < 0 then 1 else 0) <= k < |s| ==> IsDecimalDigit(s[k])
    ensures n < 0 ==> |s| >= 2
  {
    if n < 0 then "-" + Digits(-n) else Digits(n)
  }

  lemma {:induction false} ValueOfDigits(n: nat)
    ensures Value(Digits(n), 10) == n
  {
    if n >= 10 {
      var s := Digits(n);
      assert s[..|s| - 1] == Digits(n / 10);
      ValueOfDigits(n / 10);
    }
  }

  lemma DigitPrefixOfDigits(s: string)
    requires forall k :: 0 <= k < |s| ==> IsDecimalDigit(s[k])
    ensures DigitPrefix(s, 10) == s
  {
  }

  /** A string starting with a sign or a digit has no leading white space. */
  lemma NoLeadingWhiteSpace(s: string)
    requires s != [] && (s[0] == '-' || IsDecimalDigit(s[0]))
    ensures TrimStart(s) == s
  {
  }

  /** A run of decimal digits has no `0x` / `0X` prefix. */
  lemma NoHexPrefix(d: string)
    requires forall k :: 0 <= k < |d| ==> IsDecimalDigit(d[k])
    ensures !(|d| >= 2 && d[0] == '0' && (d[1] == 'x' || d[1] == 'X'))
  {
    if |d| >= 2 {
      assert IsDecimalDigit(d[1]);
    }
  }

  /** An unsigned run of decimal digits is read as its value. */
  lemma UnsignedDigits(d: string)
    requires d != [] && forall k :: 0 <= k < |d| ==> IsDecimalDigit(d[k])
    ensures ParseUnsigned(d) == Some(Value(d, 10))
  {
    NoHexPrefix(d);
    DigitPrefixOfDigits(d);
  }

  /** parseInt reads every natural number's decimal digits back. */
  lemma UnsignedDecimal(m: nat)
    ensures ParseUnsigned(Digits(m)) == Some(m)
  {
    UnsignedDigits(Digits(m));
    ValueOfDigits(m);
  }

  /** Text starting with a digit is read as an unsigned number. */
  lemma UnsignedStart(d: string)
    requires d != [] && IsDecimalDigit(d[0])
    ensures ParseInt(d) == ParseUnsigned(d)
  {
    NoLeadingWhiteSpace(d);
  }

  /** A minus sign in front of a number negates it. */
  lemma NegatedUnsigned(d: string)
    requires d != [] && IsDecimalDigit(d[0]) && ParseUnsigned(d).Some?
    ensures ParseInt("-" + d) == Some(-ParseUnsigned(d).value)
  {
    var s := "-" + d;
    assert s[0] == '-' && s[1..] == d;
    NoLeadingWhiteSpace(s);
  }

  /** parseInt reads back every integer's decimal rendering, negatives and
      numbers above 100 included. */
  lemma ParseDecimalString(n: int)
    ensures ParseInt(DecimalString(n)) == Some(n)
    ensures ParseIntOrZero(DecimalString(n)) == n
  {
    if n < 0 {
      NegativeDecimal(-n);
    } else {
      UnsignedDecimal(n);
      UnsignedStart(Digits(n));
    }
  }

  lemma NegativeDecimal(m: nat)
    ensures ParseInt("-" + Digits(m)) == Some(-(m as int))
  {
    UnsignedDecimal(m);
    NegatedUnsigned(Digits(m));
  }

  /** A value without a single decimal digit is coerced to 0. */
  lemma NonNumericIsZero(s: string)
    requires forall k :: 0 <= k < |s| ==> !IsDecimalDigit(s[k])
    ensures ParseInt(s) == None && ParseIntOrZero(s) == 0
  {
    var t := TrimStart(s);
    NoDigitsInSuffix(s, |s| - |t|);
    if t != [] && (t[0] == '-' || t[0] == '+') {
      if |t| >= 2 {
        assert t[1..][0] == t[1];
        assert !IsDecimalDigit(t[1]);
      }
      UnsignedWithoutDigit(t[1..]);
    } else {
      UnsignedWithoutDigit(t);
    }
  }

  /** Text not starting with a decimal digit holds no number. */
  lemma UnsignedWithoutDigit(u: string)
    requires u == [] || !IsDecimalDigit(u[0])
    ensures ParseUnsigned(u) == None
  {
  }

  lemma NoDigitsInSuffix(s: string, i: nat)
    requires i <= |s| && forall k :: 0 <= k < |s| ==> !IsDecimalDigit(s[k])
    ensures forall k :: 0 <= k < |s[i..]| ==> !IsDecimalDigit(s[i..][k])
  {
    forall k | 0 <= k < |s[i..]| ensures !IsDecimalDigit(s[i..][k]) {
      assert s[i..][k] == s[i + k];
    }
  }

  /** `s.split(sep)`: the pieces between occurrences of the separator; the
      empty string splits into one empty piece. */
  function Split(s: string, sep: char): (pieces: seq<string>)
    ensures |pieces| >= 1
    ensures forall k :: 0 <= k < |pieces| ==> sep !in pieces[k]
  {
    if s == [] then [""]
    else
      var rest := Split(s[1..], sep);
      if s[0] == sep then [""] + rest else [[s[0]] + rest[0]] + rest[1..]
  }

  /** `pieces.join(sep)`. */
  function Join(pieces: seq<string>, sep: string): string {
    if pieces == [] then ""
    else if |pieces| == 1 then pieces[0]
    else pieces[0] + sep + Join(pieces[1..], sep)
  }

  /** Splitting loses nothing: joining the pieces with the separator gives the
      string back. */
  lemma {:induction false} JoinSplit(s: string, sep: char)
    ensures Join(Split(s, sep), [sep]) == s
  {
    if s != [] {
      var rest := Split(s[1..], sep);
      JoinSplit(s[1..], sep);
      if s[0] == sep {
        assert Split(s, sep)[1..] == rest;
      } else {
        var p := Split(s, sep);
        assert p[1..] == rest[1..];
        if |rest| == 1 {
          assert s == [s[0]] + rest[0];
        } else {
          assert Join(rest, [sep]) == rest[0] + [sep] + Join(rest[1..], [sep]);
          assert s == [s[0]] + s[1..];
        }
      }
    }
  }

  /** Splitting at a separator splits the pieces: the pieces of `a + sep + b`
      are those of `a` followed by those of `b`. */
  lemma {:induction false} SplitAround(a: string, b: string, sep: char)
    ensures Split(a + [sep] + b, sep) == Split(a, sep) + Split(b, sep)
  {
    if a == [] {
      assert a + [sep] + b == [sep] + b;
      assert ([sep] + b)[1..] == b;
    } else {
      var s := a + [sep] + b;
      assert s[0] == a[0] && s[1..] == a[1..] + [sep] + b;
      SplitAround(a[1..], b, sep);
    }
  }

  /** Splitting a string without the separator gives that one string. */
  lemma {:induction false} SplitWithoutSeparator(s: string, sep: char)
    requires sep !in s
    ensures Split(s, sep) == [s]
  {
    if s != [] {
      SplitWithoutSeparator(s[1..], sep);
      assert [s[0]] + s[1..] == s;
    }
  }
}
