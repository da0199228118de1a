/** JavaScript's `parseInt(string)` (no radix argument) over the integers, and decimal rendering. */
module JsNumber {
  import opened Wrappers

  /** The white-space and line-terminator characters `parseInt` skips before the number. */
  predicate IsSpace(c: char) {
    || ('\t' <= c <= '\r')
    || c == ' ' || c == '\U{A0}' || c == '\U{1680}' || ('\U{2000}' <= c <= '\U{200A}')
    || c == '\U{2028}' || c == '\U{2029}' || c == '\U{202F}' || c == '\U{205F}'
    || c == '\U{3000}' || c == '\U{FEFF}'
  }

  /** `s` without its leading white space. */
  function TrimStart(s: string): string {
    if s != [] && IsSpace(s[0]) then TrimStart(s[1..]) else s
  }

  /** The value of a digit character in radix 36 notation, or 36 for any other character. */
  function DigitValue(c: char): (v: nat)
    ensures v <= 36
  {
    if '0' <= c <= '9' then c as nat - '0' as nat
    else if 'a' <= c <= 'z' then c as nat - 'a' as nat + 10
    else if 'A' <= c <= 'Z' then c as nat - 'A' as nat + 10
    else 36
  }

  predicate IsDigit(c: char, radix: nat) {
    DigitValue(c) < radix
  }

  /** The longest prefix of `s` made of digits of `radix`. */
  function DigitPrefix(s: string, radix: nat): string {
    if s != [] && IsDigit(s[0], radix) then [s[0]] + DigitPrefix(s[1..], radix) else []
  }

  /** `DigitPrefix` is a prefix of digits that cannot be extended. */
  lemma {:induction false} DigitPrefixIsLongest(s: string, radix: nat)
    ensures var ds := DigitPrefix(s, radix);
      && |ds| <= |s| && ds == s[..|ds|]
      && (forall i :: 0 <= i < |ds| ==> IsDigit(ds[i], radix))
      && (|ds| == |s| || !IsDigit(s[|ds|], radix))
    decreases |s|
  {
    if s != [] && IsDigit(s[0], radix) {
      DigitPrefixIsLongest(s[1..], radix);
    }
  }

  /** The number a digit string denotes in `radix`, most significant digit first. */
  function Value(ds: string, radix: nat): nat {
    if ds == [] then 0
    else Value(ds[..|ds| - 1], radix) * radix + DigitValue(ds[|ds| - 1])
  }

  /** `s` after an optional leading sign. */
  function Unsigned(t: string): string {
    if t != [] && (t[0] == '-' || t[0] == '+') then t[1..] else t
  }

  /** `u` starts with `0x` or `0X`, which selects radix 16. */
  predicate HexPrefixed(u: string) {
    |u| >= 2 && u[0] == '0' && (u[1] == 'x' || u[1] == 'X')
  }

  /** The radix `parseInt` reads an unsigned `u` in. */
  function Radix(u: string): nat {
    if HexPrefixed(u) then 16 else 10
  }

  /** The digits `parseInt` reads from an unsigned `u`. */
  function Digits(u: string): string {
    DigitPrefix(if HexPrefixed(u) then u[2..] else u, Radix(u))
  }

  /**
   * `parseInt(s)`: skip leading white space, take an optional sign, switch to radix 16 after
   * `0x`/`0X`, then read the longest run of digits. `None` stands for `NaN` (no digit at all).
   */
  function ParseInt(s: string): Option<int> {
    var t := TrimStart(s);
    var u := Unsigned(t);
    var ds := Digits(u);
    if ds == [] then None
    else if t[0] == '-' then Some(-(Value(ds, Radix(u)) as int))
    else Some(Value(ds, Radix(u)))
  }

  /** The decimal notation of `n`, without leading zeros (`n.toString()`). */
  function DecimalString(n: nat): (s: string)
    ensures |s| >= 1
    ensures forall i :: 0 <= i < |s| ==> '0' <= s[i] <= '9'
  {
    var d := ['0' + (n % 10) as char];
    if n < 10 then d else DecimalString(n / 10) + d
  }

  lemma {:induction false} ValueOfDecimal(n: nat)
    ensures Value(DecimalString(n), 10) == n
    decreases n
  {
    var s := DecimalString(n);
    if n >= 10 {
      ValueOfDecimal(n / 10);
      assert s[..|s| - 1] == DecimalString(n / 10);
    }
  }

  /** Only zero is written with a leading `0`. */
  lemma {:induction false} LeadingZero(n: nat)
    requires DecimalString(n)[0] == '0'
    ensures n == 0 && DecimalString(n) == "0"
    decreases n
  {
    if n >= 10 {
      LeadingZero(n / 10);
    }
  }

  lemma {:induction false} DigitPrefixOfDigits(ds: string, rest: string, radix: nat)
    requires forall i :: 0 <= i < |ds| ==> IsDigit(ds[i], radix)
    requires rest == [] || !IsDigit(rest[0], radix)
    ensures DigitPrefix(ds + rest, radix) == ds
    decreases |ds|
  {
    if ds != [] {
      DigitPrefixOfDigits(ds[1..], rest, radix);
      assert (ds + rest)[1..] == ds[1..] + rest;
    }
  }

  /** A string that starts with a decimal digit and not with `0x` is read in radix 10. */
  lemma ParseUnsignedDecimal(s: string)
    requires s != [] && IsDigit(s[0], 10)
    requires |s| >= 2 && s[0] == '0' ==> s[1] != 'x' && s[1] != 'X'
    ensures ParseInt(s) == Some(Value(DigitPrefix(s, 10), 10))
  {
    assert '0' <= s[0] <= '9';
    assert !IsSpace(s[0]);
    assert TrimStart(s) == s;
    assert Unsigned(s) == s;
    assert !HexPrefixed(s);
    assert Radix(s) == 10;
    assert Digits(s) == DigitPrefix(s, 10);
    assert DigitPrefix(s, 10) != [];
    assert s[0] != '-';
  }

  /**
   * Reading a decimal number followed by anything that is not a digit gives that number:
   * `parseInt("7")` is 7 and `parseInt("7.5")` is 7. A lone `0` followed by `x` is the
   * exception: it starts a hexadecimal number.
   */
  lemma ParseDecimal(n: nat, rest: string)
    requires rest == [] || !IsDigit(rest[0], 10)
    requires n == 0 && rest != [] ==> rest[0] != 'x' && rest[0] != 'X'
    ensures ParseInt(DecimalString(n) + rest) == Some(n)
  {
    var d := DecimalString(n);
    var s := d + rest;
    assert s[0] == d[0];
    assert |s| >= 2 && s[0] == '0' ==> s[1] != 'x' && s[1] != 'X' by {
      if |s| >= 2 && s[0] == '0' {
        LeadingZero(n);
        assert s[1] == rest[0];
      }
    }
    ParseUnsignedDecimal(s);
    DigitPrefixOfDigits(d, rest, 10);
    ValueOfDecimal(n);
  }

  /**
   * `parseInt` of text with no decimal digit after its leading white space and optional sign is
   * `NaN`: "", "   ", " x", "-x" and "+" among them.
   */
  lemma NoDigitIsNaN(s: string)
    requires var u := Unsigned(TrimStart(s)); u == [] || !IsDigit(u[0], 10)
    ensures ParseInt(s) == None
  {
  }
}
