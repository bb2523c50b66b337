/** The global `parseInt(string)` of ECMAScript with no radix argument
    (ECMA-262, section 19.2.5 in the 2021 and later editions): skip leading
    white space, read an optional sign, read an optional "0x"/"0X" prefix
    that selects radix 16 (radix 10 otherwise), then take the longest run of
    digits of that radix. No digits gives NaN, modelled as `None`. */
module JsParseInt {
  import opened Wrappers

  /** StrWhiteSpaceChar: the WhiteSpace code points (tab, vertical tab,
      form feed, space, no-break space, byte order mark and the other
      space separators) and the LineTerminator code points. */
  predicate IsStrWhiteSpace(ch: char) {
    || '\t' <= ch <= '\r'
    || ch == ' '
    || ch == '\U{00A0}'
    || ch == '\U{1680}'
    || '\U{2000}' <= ch <= '\U{200A}'
    || ch == '\U{2028}'
    || ch == '\U{2029}'
    || ch == '\U{202F}'
    || ch == '\U{205F}'
    || ch == '\U{3000}'
    || ch == '\U{FEFF}'
  }

  /** `s` with its leading white space removed. */
  function TrimStart(s: string): (r: string)
    ensures |r| <= |s| && r == s[|s| - |r|..]
    ensures forall i :: 0 <= i < |s| - |r| ==> IsStrWhiteSpace(s[i])
    ensures r == "" || !IsStrWhiteSpace(r[0])
  {
    if |s| > 0 && IsStrWhiteSpace(s[0]) then TrimStart(s[1..]) else s
  }

  /** The digit value of `ch` in the letters-after-nine notation used up to
      radix 36; 36 for a character that is no digit in any radix. */
  function DigitValue(ch: char): nat {
    if '0' <= ch <= '9' then ch as nat - '0' as nat
    else if 'a' <= ch <= 'z' then ch as nat - 'a' as nat + 10
    else if 'A' <= ch <= 'Z' then ch as nat - 'A' as nat + 10
    else 36
  }

  predicate IsDigit(ch: char, radix: nat) {
    DigitValue(ch) < radix
  }

  /** The longest prefix of `s` made of digits of `radix`. */
  function LeadingDigits(s: string, radix: nat): (r: string)
    ensures |r| <= |s| && r == s[..|r|]
    ensures forall i :: 0 <= i < |r| ==> IsDigit(r[i], radix)
    ensures |r| == |s| || !IsDigit(s[|r|], radix)
  {
    if |s| > 0 && IsDigit(s[0], radix) then [s[0]] + LeadingDigits(s[1..], radix) else ""
  }

  /** The mathematical value of a digit string, most significant first. */
  function DigitsValue(z: string, radix: nat): nat
    requires forall i :: 0 <= i < |z| ==> IsDigit(z[i], radix)
  {
    if |z| == 0 then 0
    else DigitsValue(z[..|z| - 1], radix) * radix + DigitValue(z[|z| - 1])
  }

  /** True when `u` starts with the "0x" or "0X" prefix. */
  predicate HasHexPrefix(u: string) {
    |u| >= 2 && u[0] == '0' && (u[1] == 'x' || u[1] == 'X')
  }

  /** The unsigned part: an optional hex prefix, then the longest run of
      digits of the radix it selects; `None` when that run is empty. */
  function UnsignedValue(u: string): (r: Option<nat>)
    ensures r == None <==>
      if HasHexPrefix(u) then |u| == 2 || !IsDigit(u[2], 16) else u == "" || !IsDigit(u[0], 10)
  {
    var radix := if HasHexPrefix(u) then 16 else 10;
    var z := LeadingDigits(if HasHexPrefix(u) then u[2..] else u, radix);
    if z == "" then None else Some(DigitsValue(z, radix))
  }

  /** The value of a string that starts after the white space: an
      optional sign, then the unsigned part. */
  function SignedValue(t: string): Option<int> {
    var negative := |t| > 0 && t[0] == '-';
    var u := if |t| > 0 && (t[0] == '+' || t[0] == '-') then t[1..] else t;
    match UnsignedValue(u)
    case None => None
    case Some(v) => Some(if negative then -(v as int) else v as int)
  }

  /** `parseInt(s)`; `None` stands for NaN. Blank text is NaN, a negative
      result needs a minus sign, and text that starts (after the white
      space) with a non-zero decimal digit always gives a number. */
  function ParseInt(s: string): (r: Option<int>)
    ensures TrimStart(s) == "" ==> r == None
    ensures r.Some? && r.value < 0 ==> TrimStart(s)[0] == '-'
    ensures TrimStart(s) != "" && '1' <= TrimStart(s)[0] <= '9' ==> r.Some? && r.value >= 0
  {
    SignedValue(TrimStart(s))
  }

  /** The shortest decimal spelling of `n`, as `String(n)` writes it: no
      leading zero unless `n` is 0. */
  function DecimalString(n: nat): (r: string)
    ensures |r| > 0
    ensures forall i :: 0 <= i < |r| ==> IsDigit(r[i], 10)
    ensures r[0] == '0' <==> n == 0
  {
    var last := ['0' + (n % 10) as char];
    if n < 10 then last else DecimalString(n / 10) + last
  }

  lemma {:induction false} DecimalStringValue(n: nat)
    ensures DigitsValue(DecimalString(n), 10) == n
  {
    var s := DecimalString(n);
    if n >= 10 {
      DecimalStringValue(n / 10);
      assert s[..|s| - 1] == DecimalString(n / 10);
    }
  }

  lemma {:induction false} LeadingDigitsOfDigits(z: string, rest: string, radix: nat)
    requires forall i :: 0 <= i < |z| ==> IsDigit(z[i], radix)
    requires rest == "" || !IsDigit(rest[0], radix)
    ensures LeadingDigits(z + rest, radix) == z
  {
    if |z| > 0 {
      assert (z + rest)[1..] == z[1..] + rest;
      LeadingDigitsOfDigits(z[1..], rest, radix);
    } else {
      assert z + rest == rest;
    }
  }

  lemma {:induction false} TrimStartOfBlank(ws: string, t: string)
    requires forall i :: 0 <= i < |ws| ==> IsStrWhiteSpace(ws[i])
    requires t == "" || !IsStrWhiteSpace(t[0])
    ensures TrimStart(ws + t) == t
  {
    if |ws| > 0 {
      assert (ws + t)[1..] == ws[1..] + t;
      TrimStartOfBlank(ws[1..], t);
    } else {
      assert ws + t == t;
    }
  }

  /** `rest` cannot continue the spelling of `n`: it does not start with a
      decimal digit, nor, right after a lone "0", with the "x" or "X" that
      would make a hex prefix. */
  predicate StopsNumber(n: nat, rest: string) {
    rest == "" || (!IsDigit(rest[0], 10) && (n != 0 || (rest[0] != 'x' && rest[0] != 'X')))
  }

  lemma UnsignedValueOfDecimal(n: nat, rest: string)
    requires StopsNumber(n, rest)
    ensures UnsignedValue(DecimalString(n) + rest) == Some(n)
  {
    var digits := DecimalString(n);
    var u := digits + rest;
    assert !HasHexPrefix(u) by {
      if |u| >= 2 {
        if |digits| >= 2 {
          assert u[1] == digits[1];
          assert IsDigit(digits[1], 10);
        } else if n != 0 {
          assert u[0] == digits[0];
        } else {
          assert u[1] == rest[0];
        }
      }
    }
    LeadingDigitsOfDigits(digits, rest, 10);
    DecimalStringValue(n);
  }

  lemma SignedValueNegative(u: string, n: nat)
    requires UnsignedValue(u) == Some(n)
    ensures SignedValue("-" + u) == Some(-(n as int))
  {
    assert ("-" + u)[1..] == u;
  }

  lemma SignedValueUnsigned(u: string, n: nat)
    requires UnsignedValue(u) == Some(n)
    requires |u| > 0 && IsDigit(u[0], 10)
    ensures SignedValue(u) == Some(n as int)
  {
  }

  lemma SignedValueOfDecimal(negative: bool, n: nat, rest: string)
    requires StopsNumber(n, rest)
    ensures SignedValue((if negative then "-" else "") + DecimalString(n) + rest)
            == Some(if negative then -(n as int) else n as int)
  {
    var u := DecimalString(n) + rest;
    UnsignedValueOfDecimal(n, rest);
    assert UnsignedValue(u) == Some(n);
    var t := (if negative then "-" else "") + DecimalString(n) + rest;
    if negative {
      assert t == "-" + u;
      SignedValueNegative(u, n);
      assert SignedValue("-" + u) == Some(-(n as int));
    } else {
      assert t == u;
      assert u[0] == DecimalString(n)[0];
      SignedValueUnsigned(u, n);
      assert SignedValue(u) == Some(n as int);
    }
  }

  /** Leading white space does not change the value. */
  lemma ParseIntSkipsBlank(ws: string, t: string)
    requires forall i :: 0 <= i < |ws| ==> IsStrWhiteSpace(ws[i])
    requires t == "" || !IsStrWhiteSpace(t[0])
    ensures ParseInt(ws + t) == SignedValue(t)
  {
    TrimStartOfBlank(ws, t);
  }

  /** Reading back a decimal number: after any leading white space and an
      optional minus sign, `parseInt` returns the number spelled by the
      digits and ignores whatever non-digit text follows them. */
  lemma ParseIntOfDecimal(ws: string, negative: bool, n: nat, rest: string)
    requires forall i :: 0 <= i < |ws| ==> IsStrWhiteSpace(ws[i])
    requires StopsNumber(n, rest)
    ensures ParseInt(ws + (if negative then "-" else "") + DecimalString(n) + rest)
            == Some(if negative then -(n as int) else n as int)
  {
    var sign := if negative then "-" else "";
    var t := sign + DecimalString(n) + rest;
    assert ws + sign + DecimalString(n) + rest == ws + t;
    assert t[0] == if negative then '-' else DecimalString(n)[0];
    ParseIntSkipsBlank(ws, t);
    SignedValueOfDecimal(negative, n, rest);
  }

  /** A string with no leading white space is read from its first character. */
  lemma ParseIntUnpadded(t: string)
    requires t == "" || !IsStrWhiteSpace(t[0])
    ensures ParseInt(t) == SignedValue(t)
  {
  }

  lemma SignedNaNExamples()
    ensures SignedValue("") == None
    ensures SignedValue("abc") == None
    ensures SignedValue("-") == None
    ensures SignedValue("0x") == None
  {
    assert "-"[1..] == "";
  }

  /** Strings with no digit where one is needed read as NaN. */
  lemma ParseIntNaNExamples()
    ensures ParseInt("") == None
    ensures ParseInt("abc") == None
    ensures ParseInt("-") == None
    ensures ParseInt("0x") == None
  {
    ParseIntUnpadded("");
    ParseIntUnpadded("abc");
    ParseIntUnpadded("-");
    ParseIntUnpadded("0x");
    SignedNaNExamples();
  }

  lemma DecimalDigitString(n: nat)
    requires n < 10
    ensures DecimalString(n) == ['0' + n as char]
  {
  }

  lemma ParseIntZero() ensures ParseInt("0") == Some(0) {
    DecimalDigitString(0);
    assert "" + "" + DecimalString(0) + "" == "0";
    ParseIntOfDecimal("", false, 0, "");
  }

  lemma ParseIntOne() ensures ParseInt("1") == Some(1) {
    DecimalDigitString(1);
    assert "" + "" + DecimalString(1) + "" == "1";
    ParseIntOfDecimal("", false, 1, "");
  }

  lemma ParseIntTwo() ensures ParseInt("2") == Some(2) {
    DecimalDigitString(2);
    assert "" + "" + DecimalString(2) + "" == "2";
    ParseIntOfDecimal("", false, 2, "");
  }

  lemma ParseIntSeven() ensures ParseInt("7") == Some(7) {
    DecimalDigitString(7);
    assert "" + "" + DecimalString(7) + "" == "7";
    ParseIntOfDecimal("", false, 7, "");
  }

  lemma ParseIntThreePx() ensures ParseInt(" 3px") == Some(3) {
    DecimalDigitString(3);
    assert " " + "" + DecimalString(3) + "px" == " 3px";
    ParseIntOfDecimal(" ", false, 3, "px");
  }

  lemma ParseIntMinusFive() ensures ParseInt("-5") == Some(-5) {
    DecimalDigitString(5);
    assert "" + "-" + DecimalString(5) + "" == "-5";
    ParseIntOfDecimal("", true, 5, "");
  }

  /** An "x" ends the digits of any number but 0. */
  lemma ParseIntThreeX() ensures ParseInt("3x") == Some(3) {
    DecimalDigitString(3);
    assert "" + "" + DecimalString(3) + "x" == "3x";
    ParseIntOfDecimal("", false, 3, "x");
  }

  lemma UnsignedHexExample()
    ensures UnsignedValue("0x3") == Some(3)
  {
    assert "0x3"[2..] == "3";
    assert LeadingDigits("3", 16) == "3";
    assert "3"[..0] == "";
  }

  lemma SignedHexExample()
    ensures SignedValue("0x3") == Some(3)
  {
    UnsignedHexExample();
  }

  /** The "0x" prefix switches to radix 16, so "0x3" reads as 3. */
  lemma ParseIntHexExample()
    ensures ParseInt("0x3") == Some(3)
  {
    ParseIntUnpadded("0x3");
    SignedHexExample();
  }
}
