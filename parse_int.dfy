/** The global `parseInt(string)` of ECMA-262 (section 19.2.5, "parseInt
    ( string, radix )"), called with the radix argument absent, as the setup
    form calls it. Strings are sequences of Unicode scalar values; the result
    is the exact mathematical integer, and `None` stands for NaN. */
module JsParseInt {
  import opened Wrappers

  /** StrWhiteSpaceChar (section 7.1.4.1.1): the WhiteSpace code points of
      section 12.2 (tab, vertical tab, form feed, ZWNBSP and every "Zs" space
      separator) and the LineTerminator code points of section 12.3. */
  predicate IsStrWhiteSpaceChar(c: char) {
    || c == '\t' || c == '\U{B}' || c == '\U{C}' || c == '\U{FEFF}'
    || c == ' ' || c == '\U{A0}' || c == '\U{1680}' || ('\U{2000}' <= c <= '\U{200A}')
    || c == '\U{202F}' || c == '\U{205F}' || c == '\U{3000}'
    || c == '\n' || c == '\r' || c == '\U{2028}' || c == '\U{2029}'
  }

  /** TrimString(s, start): the input without its leading white space. */
  function TrimStart(s: string): (r: string)
    ensures |r| <= |s| && r == s[|s| - |r|..]
    ensures forall i :: 0 <= i < |s| - |r| ==> IsStrWhiteSpaceChar(s[i])
    ensures r != [] ==> !IsStrWhiteSpaceChar(r[0])
  {
    if s != [] && IsStrWhiteSpaceChar(s[0]) then TrimStart(s[1..]) else s
  }

  /** The value of `c` read as a digit in radix 36 ('0'..'9', then the Latin
      letters in either case); 36 for any other character. */
  function DigitValue(c: char): (d: nat)
    ensures d <= 36
    ensures d < 10 <==> '0' <= c <= '9'
  {
    if '0' <= c <= '9' then (c as int) - ('0' as int)
    else if 'a' <= c <= 'z' then (c as int) - ('a' as int) + 10
    else if 'A' <= c <= 'Z' then (c as int) - ('A' as int) + 10
    else 36
  }

  predicate IsRadixDigit(c: char, radix: nat) {
    DigitValue(c) < radix
  }

  predicate IsDecimalDigit(c: char) {
    '0' <= c <= '9'
  }

  /** Step 11's `end`: the length of the longest prefix of `s` made of
      radix-`radix` digits. */
  function DigitRun(s: string, radix: nat): (n: nat)
    ensures n <= |s|
    ensures forall i :: 0 <= i < n ==> IsRadixDigit(s[i], radix)
    ensures n < |s| ==> !IsRadixDigit(s[n], radix)
  {
    if s != [] && IsRadixDigit(s[0], radix) then 1 + DigitRun(s[1..], radix) else 0
  }

  /** Step 14: the integer a string of radix-`radix` digits denotes. */
  function DigitsValue(z: string, radix: nat): nat {
    if z == [] then 0 else DigitsValue(z[..|z| - 1], radix) * radix + DigitValue(z[|z| - 1])
  }

  /** `parseInt(input)` with no radix: skip the leading white space, then
      read an optionally signed run of digits. */
  function ParseInt(input: string): (r: Option<int>)
    ensures (forall i :: 0 <= i < |input| ==> IsStrWhiteSpaceChar(input[i])) ==> r.None?
    ensures r.Some? ==> exists i :: 0 <= i < |input| && IsDecimalDigit(input[i])
  {
    TrimmedText(input);
    ParseSigned(TrimStart(input))
  }

  /** White space alone trims to nothing, and a number read from the
      trimmed text was read from a decimal digit of the input. */
  lemma TrimmedText(input: string)
    ensures (forall i :: 0 <= i < |input| ==> IsStrWhiteSpaceChar(input[i])) ==> TrimStart(input) == []
    ensures ParseSigned(TrimStart(input)).Some? ==>
      exists i :: 0 <= i < |input| && IsDecimalDigit(input[i])
  {
    var t := TrimStart(input);
    if t != [] {
      assert input[|input| - |t|] == t[0];
      if |t| >= 2 {
        assert input[|input| - |t| + 1] == t[1];
      }
    }
  }

  /** Step 16: the magnitude with the sign put back. */
  function SignedValue(negative: bool, m: nat): (v: int)
    ensures v < 0 ==> negative
    ensures negative && m > 0 ==> v < 0
    ensures !negative ==> v == m
  {
    if negative then -(m as int) else m
  }

  /** Steps 4 to 16 on trimmed text: one '+' or '-' sign, then the
      magnitude; no digit at all gives NaN. */
  function ParseSigned(s: string): (r: Option<int>)
    ensures r.Some? ==>
      s != [] && (IsDecimalDigit(s[0]) || ((s[0] == '+' || s[0] == '-') && |s| >= 2 && IsDecimalDigit(s[1])))
    ensures r.Some? && r.value < 0 ==> s[0] == '-'
    ensures s != [] && (s[0] == '+' || s[0] == '-') && |s| >= 2 && '1' <= s[1] <= '9' ==>
      r.Some? && (r.value < 0 <==> s[0] == '-')
  {
    var negative := s != [] && s[0] == '-';
    var unsigned := if s != [] && (s[0] == '+' || s[0] == '-') then s[1..] else s;
    match ParseMagnitude(unsigned)
    case None => None
    case Some(m) => Some(SignedValue(negative, m))
  }

  /** Steps 10 to 14 on unsigned text: a "0x"/"0X" prefix switches to
      radix 16, then the longest run of digits is read. */
  function ParseMagnitude(s: string): (r: Option<nat>)
    ensures r.Some? ==> s != [] && IsDecimalDigit(s[0])
    ensures s != [] && '1' <= s[0] <= '9' ==> r.Some? && r.value > 0
  {
    var hex := |s| >= 2 && s[0] == '0' && (s[1] == 'x' || s[1] == 'X');
    var radix := if hex then 16 else 10;
    var body := if hex then s[2..] else s;
    var end := DigitRun(body, radix);
    if end == 0 then None
    else
      DigitsValueAtLeastLead(body[..end], radix);
      Some(DigitsValue(body[..end], radix))
  }

  /** A run of digits denotes at least its leading digit. */
  lemma {:induction false} DigitsValueAtLeastLead(z: string, radix: nat)
    requires z != [] && radix >= 1
    ensures DigitsValue(z, radix) >= DigitValue(z[0])
  {
    var prefix := z[..|z| - 1];
    var p := DigitsValue(prefix, radix);
    assert DigitsValue(z, radix) == p * radix + DigitValue(z[|z| - 1]);
    if prefix == [] {
      assert z[|z| - 1] == z[0];
    } else {
      assert prefix[0] == z[0];
      DigitsValueAtLeastLead(prefix, radix);
      AtLeastOnce(p, radix);
    }
  }

  lemma AtLeastOnce(a: nat, b: nat)
    requires b >= 1
    ensures a * b >= a
  {
    assert a * b == a + a * (b - 1);
  }

  /** The decimal digits of a natural number, most significant first, with
      no leading zero. */
  function NatDigits(n: nat): (r: string)
    ensures |r| >= 1
    ensures forall i :: 0 <= i < |r| ==> IsDecimalDigit(r[i])
    ensures r[0] == '0' ==> n == 0 && |r| == 1
  {
    var last := ((n % 10) + ('0' as int)) as char;
    if n < 10 then [last] else NatDigits(n / 10) + [last]
  }

  /** The shortest decimal text of an integer, with a leading '-' when
      negative. */
  function DecimalString(n: int): (r: string)
    ensures r != []
  {
    if n < 0 then "-" + NatDigits(-n) else NatDigits(n)
  }

  lemma {:induction false} NatDigitsValue(n: nat)
    ensures DigitsValue(NatDigits(n), 10) == n
  {
    var r := NatDigits(n);
    assert DigitValue(r[|r| - 1]) == n % 10;
    if n >= 10 {
      assert r[..|r| - 1] == NatDigits(n / 10);
      NatDigitsValue(n / 10);
    }
  }

  /** `parseInt` reads back the decimal text of every integer. */
  lemma ParseIntOfDecimalString(n: int)
    ensures ParseInt(DecimalString(n)) == Some(n)
  {
    var m: nat := if n < 0 then -n else n;
    NatDigitsMagnitude(m);
    SignedDigits(NatDigits(m), m);
  }

  lemma NatDigitsMagnitude(m: nat)
    ensures ParseMagnitude(NatDigits(m)) == Some(m)
  {
    var digits := NatDigits(m);
    DecimalMagnitude(digits, "");
    assert digits + "" == digits;
    NatDigitsValue(m);
  }

  lemma SignedDigits(digits: string, m: nat)
    requires digits != [] && IsDecimalDigit(digits[0])
    requires ParseMagnitude(digits) == Some(m)
    ensures ParseInt(digits) == Some(m) && ParseInt("-" + digits) == Some(-(m as int))
  {
    TrimStartUnchanged(digits);
    UnsignedParse(digits);
    TrimStartUnchanged("-" + digits);
    NegatedParse(digits, m);
  }

  lemma NegatedParse(digits: string, m: nat)
    requires ParseMagnitude(digits) == Some(m)
    ensures ParseSigned("-" + digits) == Some(-(m as int))
  {
    var s := "-" + digits;
    assert s[0] == '-' && s[1..] == digits;
  }

  lemma TrimStartUnchanged(s: string)
    requires s != [] && (s[0] == '-' || s[0] == '+' || IsDecimalDigit(s[0]))
    ensures TrimStart(s) == s
  {
    assert !IsStrWhiteSpaceChar(s[0]);
  }

  lemma {:induction false} TrimStartSkipsWhiteSpace(ws: string, s: string)
    requires forall i :: 0 <= i < |ws| ==> IsStrWhiteSpaceChar(ws[i])
    ensures TrimStart(ws + s) == TrimStart(s)
  {
    if ws != [] {
      assert (ws + s)[1..] == ws[1..] + s;
      TrimStartSkipsWhiteSpace(ws[1..], s);
    } else {
      assert ws + s == s;
    }
  }

  /** Leading white space never changes what `parseInt` reads. */
  lemma ParseIntIgnoresLeadingWhiteSpace(ws: string, s: string)
    requires forall i :: 0 <= i < |ws| ==> IsStrWhiteSpaceChar(ws[i])
    ensures ParseInt(ws + s) == ParseInt(s)
  {
    TrimStartSkipsWhiteSpace(ws, s);
  }

  /** `parseInt` stops at the first character that is not a digit, so the
      integer part of "12.7" or the mantissa of "1e3" is what it returns
      (unless the text starts "0x", which selects radix 16). */
  lemma ParseIntStopsAtNonDigit(digits: string, rest: string)
    requires digits != []
    requires forall i :: 0 <= i < |digits| ==> IsDecimalDigit(digits[i])
    requires rest != [] ==> !IsDecimalDigit(rest[0])
    requires !(digits == "0" && rest != [] && (rest[0] == 'x' || rest[0] == 'X'))
    ensures ParseInt(digits + rest) == Some(DigitsValue(digits, 10))
  {
    var s := digits + rest;
    assert s[0] == digits[0];
    TrimStartUnchanged(s);
    UnsignedParse(s);
    DecimalMagnitude(digits, rest);
  }

  /** A sign in front of the leading digits: "-12.7" gives -12, "-007"
      gives -7, "+5" gives 5 and "-0" gives 0. */
  lemma SignedStopsAtNonDigit(sign: char, digits: string, rest: string)
    requires sign == '+' || sign == '-'
    requires digits != []
    requires forall i :: 0 <= i < |digits| ==> IsDecimalDigit(digits[i])
    requires rest != [] ==> !IsDecimalDigit(rest[0])
    requires !(digits == "0" && rest != [] && (rest[0] == 'x' || rest[0] == 'X'))
    ensures ParseInt([sign] + (digits + rest)) == Some(SignedValue(sign == '-', DigitsValue(digits, 10)))
  {
    DecimalMagnitude(digits, rest);
    SignedText(sign, digits + rest, DigitsValue(digits, 10));
  }

  /** A sign in front of text whose magnitude is `m`. */
  lemma SignedText(sign: char, u: string, m: nat)
    requires sign == '+' || sign == '-'
    requires ParseMagnitude(u) == Some(m)
    ensures ParseInt([sign] + u) == Some(SignedValue(sign == '-', m))
  {
    var s := [sign] + u;
    assert s[0] == sign && s[1..] == u;
    TrimStartUnchanged(s);
  }

  lemma UnsignedParse(s: string)
    requires s != [] && IsDecimalDigit(s[0])
    ensures ParseSigned(s) == ParseMagnitude(s)
  {
    match ParseMagnitude(s)
    case None =>
    case Some(m) =>
  }

  lemma DecimalMagnitude(digits: string, rest: string)
    requires digits != []
    requires forall i :: 0 <= i < |digits| ==> IsDecimalDigit(digits[i])
    requires rest != [] ==> !IsDecimalDigit(rest[0])
    requires !(digits == "0" && rest != [] && (rest[0] == 'x' || rest[0] == 'X'))
    ensures ParseMagnitude(digits + rest) == Some(DigitsValue(digits, 10))
  {
    var s := digits + rest;
    assert !(|s| >= 2 && s[0] == '0' && (s[1] == 'x' || s[1] == 'X')) by {
      if |digits| >= 2 {
        assert s[1] == digits[1];
      }
    }
    DecimalDigitRunPrefix(digits, rest);
    assert s[..|digits|] == digits;
  }

  lemma {:induction false} DecimalDigitRunPrefix(digits: string, rest: string)
    requires forall i :: 0 <= i < |digits| ==> IsDecimalDigit(digits[i])
    requires rest != [] ==> !IsDecimalDigit(rest[0])
    ensures DigitRun(digits + rest, 10) == |digits|
  {
    if digits == [] {
      assert digits + rest == rest;
    } else {
      assert (digits + rest)[1..] == digits[1..] + rest;
      DecimalDigitRunPrefix(digits[1..], rest);
    }
  }

  /** Text without any decimal digit (the empty string among others) parses
      to NaN. */
  lemma ParseIntWithoutDigits(s: string)
    requires forall i :: 0 <= i < |s| ==> !IsDecimalDigit(s[i])
    ensures ParseInt(s) == None
  {
    var t := TrimStart(s);
    var u := if t != [] && (t[0] == '+' || t[0] == '-') then t[1..] else t;
    if u != [] {
      assert u[0] == s[|s| - |u|];
    }
    MagnitudeWithoutDigit(u);
  }

  lemma MagnitudeWithoutDigit(u: string)
    requires u != [] ==> !IsDecimalDigit(u[0])
    ensures ParseMagnitude(u) == None
  {
  }
}
