/** Conversions of loosely typed values to numbers: Python's float() on a decoded JSON
    value and JavaScript's parseInt on form text. */
module Numbers {
  import opened Wrappers
  import opened Text

  /** A value as Python's JSON decoding hands it over: a number (int or float), a text,
      a boolean, None, or a list/dict. */
  datatype Scalar = Num(x: real) | Str(s: string) | Bool(b: bool) | Null | Container

  function Pow10(k: nat): (r: nat)
    ensures r >= 1
  {
    if k == 0 then 1 else 10 * Pow10(k - 1)
  }

  /** Python's float(v): a number is itself, True/False are 1.0/0.0, a text is parsed,
      and None or a container raises (None here). */
  function ToFloat(v: Scalar): Option<real>
  {
    match v
    case Num(x) => Some(x)
    case Bool(b) => Some(if b then 1.0 else 0.0)
    case Str(s) => ParseFloat(s)
    case Null => None
    case Container => None
  }

  /** Unsigned decimal text: digits, optionally followed by '.' and more digits, or '.'
      followed by digits. */
  function ParseUnsigned(t: string): Option<real>
  {
    if '.' in t then
      var i := IndexOf(t, '.');
      var ip, fp := t[..i], t[i + 1..];
      if AllDigits(ip) && AllDigits(fp) && (ip != [] || fp != []) then
        Some(DigitsValue(ip) as real + DigitsValue(fp) as real / Pow10(|fp|) as real)
      else None
    else if t != [] && AllDigits(t) then Some(DigitsValue(t) as real)
    else None
  }

  /** Text that starts with neither a digit nor '.' is no unsigned decimal. */
  lemma UnsignedNeedsDigitOrPoint(t: string)
    requires t != [] && !IsDigit(t[0]) && t[0] != '.'
    ensures ParseUnsigned(t) == None
  {
    if '.' in t {
      var i := IndexOf(t, '.');
      assert t[..i][0] == t[0];
    }
  }

  /** Python's float(text): surrounding whitespace, an optional sign, then an unsigned
      decimal. */
  function ParseFloat(s: string): Option<real>
  {
    var t := Strip(s);
    if t == [] then None
    else if t[0] == '-' then
      match ParseUnsigned(t[1..])
      case Some(x) => Some(-x)
      case None => None
    else if t[0] == '+' then ParseUnsigned(t[1..])
    else ParseUnsigned(t)
  }

  /** Text that starts with a character other than a sign, a digit or '.' (and does
      not end in whitespace) is no number. */
  lemma NotANumber(s: string)
    requires s != [] && s[0] !in Whitespace && s[|s| - 1] !in Whitespace
    requires !IsDigit(s[0]) && s[0] !in {'.', '+', '-'}
    ensures ParseFloat(s) == None
  {
    StripByNoop(s, Whitespace);
    UnsignedNeedsDigitOrPoint(s);
  }

  /** float(str(n)) == n for every natural number n. */
  lemma ParseFloatOfNat(n: nat)
    ensures ParseFloat(NatToString(n)) == Some(n as real)
  {
    var s := NatToString(n);
    assert IsDigit(s[0]) && IsDigit(s[|s| - 1]);
    StripByNoop(s, Whitespace);
    assert ParseUnsigned(s) == Some(n as real);
  }

  /** The longest prefix of s made of decimal digits. */
  function DigitPrefix(s: string): (r: string)
    ensures |r| <= |s| && AllDigits(r) && r == s[..|r|]
    ensures |r| == |s| || !IsDigit(s[|r|])
  {
    if s != [] && IsDigit(s[0]) then
      var rest := DigitPrefix(s[1..]);
      assert s[1..][..|rest|] == s[1..|rest| + 1];
      [s[0]] + rest
    else []
  }

  predicate IsHexDigit(c: char) { IsDigit(c) || 'a' <= c <= 'f' || 'A' <= c <= 'F' }

  predicate AllHexDigits(s: string) { forall k :: 0 <= k < |s| ==> IsHexDigit(s[k]) }

  function HexDigitValue(c: char): (d: nat)
    requires IsHexDigit(c)
    ensures d < 16
    ensures IsDigit(c) ==> d == DigitValue(c)
  {
    if IsDigit(c) then DigitValue(c)
    else if 'a' <= c <= 'f' then c as int - 'a' as int + 10
    else c as int - 'A' as int + 10
  }

  /** The number a string of hexadecimal digits denotes, most significant digit first. */
  function HexValue(s: string): nat
    requires AllHexDigits(s)
  {
    if s == [] then 0 else HexValue(s[..|s| - 1]) * 16 + HexDigitValue(s[|s| - 1])
  }

  /** The longest prefix of s made of hexadecimal digits. */
  function HexPrefix(s: string): (r: string)
    ensures |r| <= |s| && AllHexDigits(r) && r == s[..|r|]
    ensures |r| == |s| || !IsHexDigit(s[|r|])
  {
    if s != [] && IsHexDigit(s[0]) then
      var rest := HexPrefix(s[1..]);
      assert s[1..][..|rest|] == s[1..|rest| + 1];
      [s[0]] + rest
    else []
  }

  /** Text that parseInt without a radix reads in base 16. */
  predicate HexMarked(u: string) { |u| >= 2 && u[0] == '0' && (u[1] == 'x' || u[1] == 'X') }

  /** parseInt's reading of unsigned text: "0x"/"0X" and the longest run of hexadecimal
      digits, or else the longest run of decimal digits; NaN (None) when that run is
      empty. */
  function UnsignedIntJs(u: string): Option<nat>
  {
    if HexMarked(u) then HexReading(u) else DecimalReading(u)
  }

  function HexReading(u: string): Option<nat>
    requires HexMarked(u)
  {
    var h := HexPrefix(u[2..]);
    if h == [] then None else Some(HexValue(h))
  }

  function DecimalReading(u: string): Option<nat>
  {
    var d := DigitPrefix(u);
    if d == [] then None else Some(DigitsValue(d))
  }

  /** JavaScript's parseInt(text) without a radix: leading whitespace and an optional
      sign, then the unsigned reading. */
  function ParseIntJs(s: string): Option<int>
  {
    var t := TrimStartBy(s, Whitespace);
    var u := if t != [] && (t[0] == '-' || t[0] == '+') then t[1..] else t;
    match UnsignedIntJs(u)
    case None => None
    case Some(m) => Some(if t != [] && t[0] == '-' then -(m as int) else m)
  }

  lemma HexPrefixAll(s: string)
    requires AllHexDigits(s)
    ensures HexPrefix(s) == s
  {
    if s != [] {
      HexPrefixAll(s[1..]);
    }
  }

  /** "0x" followed by hexadecimal digits reads as their value. */
  lemma UnsignedIntJsHex(h: string)
    requires h != [] && AllHexDigits(h)
    ensures UnsignedIntJs(['0', 'x'] + h) == Some(HexValue(h))
  {
    HexPrefixAll(h);
    var s := ['0', 'x'] + h;
    assert HexMarked(s) && s[2..] == h;
  }

  /** Unsigned text reads as its unsigned reading, and with a '-' in front as its
      negation. */
  lemma ParseIntJsSigned(s: string)
    requires s != [] && s[0] !in Whitespace && s[0] != '-' && s[0] != '+'
    ensures ParseIntJs(s) == if UnsignedIntJs(s).Some? then Some(UnsignedIntJs(s).value as int) else None
    ensures ParseIntJs(['-'] + s) == if UnsignedIntJs(s).Some? then Some(-(UnsignedIntJs(s).value as int)) else None
  {
    ParseIntJsUnsigned(s);
    ParseIntJsMinus(s);
  }

  lemma ParseIntJsUnsigned(s: string)
    requires s != [] && s[0] !in Whitespace && s[0] != '-' && s[0] != '+'
    ensures ParseIntJs(s) == if UnsignedIntJs(s).Some? then Some(UnsignedIntJs(s).value as int) else None
  {
    TrimStartNoop(s, Whitespace);
  }

  lemma ParseIntJsMinus(s: string)
    requires s != [] && s[0] !in Whitespace && s[0] != '-' && s[0] != '+'
    ensures ParseIntJs(['-'] + s) == if UnsignedIntJs(s).Some? then Some(-(UnsignedIntJs(s).value as int)) else None
  {
    var m := ['-'] + s;
    assert m[0] == '-' && m[1..] == s;
    TrimStartNoop(m, Whitespace);
  }

  /** parseInt("0x1F") is 31, not 0, and with a '-' in front it is -31. */
  lemma ParseIntJsHexExample()
    ensures ParseIntJs("0x1F") == Some(31)
    ensures ParseIntJs("-" + "0x1F") == Some(-31)
  {
    var h := "1F";
    HexValue1F();
    UnsignedIntJsHex(h);
    ParseIntJsSigned("0x1F");
    assert ['0', 'x'] + h == "0x1F";
  }

  lemma HexValue1F()
    ensures AllHexDigits("1F") && HexValue("1F") == 31
  {
    assert "1F"[..1] == "1";
    assert HexValue("1") == 1;
  }

  /** Text that opens on a character that is neither whitespace, a sign nor a digit
      reads as NaN. */
  lemma ParseIntJsNoDigit(s: string)
    requires s != [] && s[0] !in Whitespace && s[0] != '-' && s[0] != '+' && !IsDigit(s[0])
    ensures ParseIntJs(s) == None
  {
    assert TrimStartBy(s, Whitespace) == s;
  }

  lemma DigitPrefixAll(s: string)
    requires AllDigits(s)
    ensures DigitPrefix(s) == s
  {
    if s != [] {
      DigitPrefixAll(s[1..]);
    }
  }

  /** parseInt(String(i)) == i for every integer i. */
  lemma ParseIntJsOfInt(i: int)
    ensures ParseIntJs(IntToString(i)) == Some(i)
  {
    var n: nat := if i < 0 then -i else i;
    var digits := NatToString(n);
    UnsignedIntJsOfNat(n);
    assert IsDigit(digits[0]);
    ParseIntJsSigned(digits);
    if i < 0 {
      assert IntToString(i) == ['-'] + digits;
    }
  }

  /** The decimal text of n reads back as n: it never starts with "0x". */
  lemma UnsignedIntJsOfNat(n: nat)
    ensures UnsignedIntJs(NatToString(n)) == Some(n)
  {
    var digits := NatToString(n);
    DigitPrefixAll(digits);
    assert !HexMarked(digits) by {
      if |digits| >= 2 { assert IsDigit(digits[1]); }
    }
  }

  /** The digits of a number followed by a non-digit read back as that number. */
  lemma {:induction false} DigitPrefixOfDigits(digits: string, rest: string)
    requires AllDigits(digits)
    requires rest == [] || !IsDigit(rest[0])
    ensures DigitPrefix(digits + rest) == digits
  {
    if digits == [] {
    } else {
      assert (digits + rest)[1..] == digits[1..] + rest;
      DigitPrefixOfDigits(digits[1..], rest);
    }
  }

  /** A two-digit zero-padded rendering of n < 100: its tens digit, then its units. */
  lemma Pad2ReadsBack(n: nat)
    requires n < 100
    ensures PadStart2(NatToString(n)) == [DigitChar(n / 10), DigitChar(n % 10)]
  {
    if n >= 10 {
      assert NatToString(n / 10) == [DigitChar(n / 10)];
    }
  }

  /** Digits followed by a non-digit separator: the leading digit run is exactly the
      digits. */
  lemma DigitsThenSeparator(digits: string, sep: string, other: string)
    requires AllDigits(digits) && sep != [] && !IsDigit(sep[0])
    ensures DigitPrefix(digits + sep + other) == digits
  {
    var rest := sep + other;
    assert digits + sep + other == digits + rest;
    assert rest[0] == sep[0];
    DigitPrefixOfDigits(digits, rest);
  }

  /** The two characters at position at, read as a number when both are digits. */
  function TwoDigitsAt(r: string, at: nat): (v: Option<nat>)
    ensures v.Some? ==> v.value < 100
  {
    if at + 2 <= |r| && IsDigit(r[at]) && IsDigit(r[at + 1]) then
      Some(DigitValue(r[at]) * 10 + DigitValue(r[at + 1]))
    else None
  }

  /** A number below 100 as two digits, tens first. */
  function TwoDigits(n: nat): (r: string)
    requires n < 100
    ensures |r| == 2 && AllDigits(r)
  {
    [DigitChar(n / 10), DigitChar(n % 10)]
  }

  /** TwoDigits is JavaScript's n.toString().padStart(2, '0') (and Python's
      f"{n:02d}") for n < 100. */
  lemma TwoDigitsIsPadStart(n: nat)
    requires n < 100
    ensures TwoDigits(n) == PadStart2(NatToString(n))
  {
    Pad2ReadsBack(n);
  }

  /** The decimal rendering of n followed by a non-digit: its leading digit run is
      that rendering. */
  lemma NatThenSeparator(n: nat, sep: string, other: string)
    requires sep != [] && !IsDigit(sep[0])
    ensures DigitPrefix(NatToString(n) + sep + other) == NatToString(n)
  {
    DigitsThenSeparator(NatToString(n), sep, other);
  }

  /** "<lead><sep><field as two digits><unit>", the shape the duration formatters
      write: the leading digits are lead's rendering and the two digits after the
      separator read back as field. */
  lemma ClockReadsBack(lead: nat, sep: string, field: nat, unit: string)
    requires field < 100 && sep != [] && !IsDigit(sep[0])
    ensures DigitPrefix(NatToString(lead) + sep + TwoDigits(field) + unit) == NatToString(lead)
    ensures TwoDigitsAt(NatToString(lead) + sep + TwoDigits(field) + unit, |NatToString(lead)| + |sep|) == Some(field)
  {
    var d := NatToString(lead);
    var o := TwoDigits(field) + unit;
    NatThenSeparator(lead, sep, o);
    assert d + sep + TwoDigits(field) + unit == d + sep + o;
    var r := d + sep + TwoDigits(field) + unit;
    assert r[|d| + |sep|] == DigitChar(field / 10) && r[|d| + |sep| + 1] == DigitChar(field % 10);
  }
}
