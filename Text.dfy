/** Character classes, decimal rendering and parsing, and the few Python string methods the
    pipeline relies on (str.upper, str.title, str.strip, `in` on strings, str.split('\n'),
    str.join). Decimal digits and whitespace follow Python 3 on Unicode text; letter casing
    covers ASCII only. */
module Text {
  import opened Wrappers

  /** Some(z) when code point x lies in the block of ten digits that starts at z. */
  function Block(x: int, z: int): (r: Option<int>)
    ensures r.Some? ==> r.value == z && z <= x
  {
    if z <= x then Some(z) else None
  }

  /** The code point of the digit zero of the block of ten decimal digits holding c (Unicode
      general category Nd, Unicode 15.0), or None when c is not a decimal digit. Every such
      block holds the digits 0 to 9 in order; the blocks are listed in increasing order. */
  function DigitZero(c: char): (z: Option<int>)
    ensures z.Some? ==> z.value <= c as int < z.value + 10
  {
    var x := c as int;
    if x < 0x30 then None
    else if x < 0x3A then Some(0x30)
    else if x < 0x660 then None
    else if x < 0x66A then Block(x, 0x660)
    else if x < 0x6FA then Block(x, 0x6F0)
    else if x < 0x7CA then Block(x, 0x7C0)
    else if x < 0x970 then Block(x, 0x966)
    else if x < 0x9F0 then Block(x, 0x9E6)
    else if x < 0xA70 then Block(x, 0xA66)
    else if x < 0xAF0 then Block(x, 0xAE6)
    else if x < 0xB70 then Block(x, 0xB66)
    else if x < 0xBF0 then Block(x, 0xBE6)
    else if x < 0xC70 then Block(x, 0xC66)
    else if x < 0xCF0 then Block(x, 0xCE6)
    else if x < 0xD70 then Block(x, 0xD66)
    else if x < 0xDF0 then Block(x, 0xDE6)
    else if x < 0xE5A then Block(x, 0xE50)
    else if x < 0xEDA then Block(x, 0xED0)
    else if x < 0xF2A then Block(x, 0xF20)
    else if x < 0x104A then Block(x, 0x1040)
    else if x < 0x109A then Block(x, 0x1090)
    else if x < 0x17EA then Block(x, 0x17E0)
    else if x < 0x181A then Block(x, 0x1810)
    else if x < 0x1950 then Block(x, 0x1946)
    else if x < 0x19DA then Block(x, 0x19D0)
    else if x < 0x1A8A then Block(x, 0x1A80)
    else if x < 0x1A9A then Block(x, 0x1A90)
    else if x < 0x1B5A then Block(x, 0x1B50)
    else if x < 0x1BBA then Block(x, 0x1BB0)
    else if x < 0x1C4A then Block(x, 0x1C40)
    else if x < 0x1C5A then Block(x, 0x1C50)
    else if x < 0xA62A then Block(x, 0xA620)
    else if x < 0xA8DA then Block(x, 0xA8D0)
    else if x < 0xA90A then Block(x, 0xA900)
    else if x < 0xA9DA then Block(x, 0xA9D0)
    else if x < 0xA9FA then Block(x, 0xA9F0)
    else if x < 0xAA5A then Block(x, 0xAA50)
    else if x < 0xABFA then Block(x, 0xABF0)
    else if x < 0xFF1A then Block(x, 0xFF10)
    else if x < 0x104AA then Block(x, 0x104A0)
    else if x < 0x10D3A then Block(x, 0x10D30)
    else if x < 0x11070 then Block(x, 0x11066)
    else if x < 0x110FA then Block(x, 0x110F0)
    else if x < 0x11140 then Block(x, 0x11136)
    else if x < 0x111DA then Block(x, 0x111D0)
    else if x < 0x112FA then Block(x, 0x112F0)
    else if x < 0x1145A then Block(x, 0x11450)
    else if x < 0x114DA then Block(x, 0x114D0)
    else if x < 0x1165A then Block(x, 0x11650)
    else if x < 0x116CA then Block(x, 0x116C0)
    else if x < 0x1173A then Block(x, 0x11730)
    else if x < 0x118EA then Block(x, 0x118E0)
    else if x < 0x1195A then Block(x, 0x11950)
    else if x < 0x11C5A then Block(x, 0x11C50)
    else if x < 0x11D5A then Block(x, 0x11D50)
    else if x < 0x11DAA then Block(x, 0x11DA0)
    else if x < 0x11F5A then Block(x, 0x11F50)
    else if x < 0x16A6A then Block(x, 0x16A60)
    else if x < 0x16ACA then Block(x, 0x16AC0)
    else if x < 0x16B5A then Block(x, 0x16B50)
    else if x < 0x1D7D8 then Block(x, 0x1D7CE)
    else if x < 0x1D7E2 then Block(x, 0x1D7D8)
    else if x < 0x1D7EC then Block(x, 0x1D7E2)
    else if x < 0x1D7F6 then Block(x, 0x1D7EC)
    else if x < 0x1D800 then Block(x, 0x1D7F6)
    else if x < 0x1E14A then Block(x, 0x1E140)
    else if x < 0x1E2FA then Block(x, 0x1E2F0)
    else if x < 0x1E4FA then Block(x, 0x1E4F0)
    else if x < 0x1E95A then Block(x, 0x1E950)
    else if x < 0x1FBFA then Block(x, 0x1FBF0)
    else None
  }

  /** `\d` of Python's re module on str patterns, and the digits int() accepts: any character
      of general category Nd. */
  predicate IsDigit(c: char) { DigitZero(c).Some? }

  /** The ASCII digits of the character class `[0-9]`. */
  predicate IsAsciiDigit(c: char) { '0' <= c <= '9' }

  predicate IsLetter(c: char) { 'a' <= c <= 'z' || 'A' <= c <= 'Z' }

  /** First character of an identifier: `[a-zA-Z_]`. */
  predicate IsIdentStart(c: char) { IsLetter(c) || c == '_' }

  /** Later characters of an identifier: `[a-zA-Z_0-9]`. */
  predicate IsIdentChar(c: char) { IsIdentStart(c) || IsAsciiDigit(c) }

  predicate AllDigits(s: string) { forall i :: 0 <= i < |s| ==> IsDigit(s[i]) }

  /** The value of a decimal digit: its distance from the zero of its block. */
  function DigitValue(c: char): (d: nat)
    requires IsDigit(c)
    ensures d < 10
    ensures IsAsciiDigit(c) ==> d == c as int - '0' as int
  {
    c as int - DigitZero(c).value
  }

  function DigitChar(d: nat): (c: char)
    requires d < 10
    ensures IsDigit(c) && DigitValue(c) == d
  {
    ('0' as int + d) as char
  }

  /** The number a run of decimal digits denotes (Python's int() on such a run). */
  function DigitsValue(s: string): nat
    requires AllDigits(s)
  {
    if s == [] then 0 else DigitsValue(s[..|s| - 1]) * 10 + DigitValue(s[|s| - 1])
  }

  /** Decimal rendering of a natural number, without leading zeros. */
  function NatStr(n: nat): (s: string)
    ensures |s| > 0 && AllDigits(s)
    ensures |s| > 1 ==> s[0] != '0'
  {
    if n < 10 then [DigitChar(n)] else NatStr(n / 10) + [DigitChar(n % 10)]
  }

  /** Python's str() of an int. */
  function IntStr(i: int): string
  {
    if i < 0 then "-" + NatStr(-i) else NatStr(i)
  }

  lemma {:induction false} NatStrValue(n: nat)
    ensures DigitsValue(NatStr(n)) == n
  {
    if n >= 10 {
      var s := NatStr(n);
      assert s[..|s| - 1] == NatStr(n / 10);
      NatStrValue(n / 10);
    }
  }

  /** Decimal rendering is injective: two numbers print alike only when they are equal. */
  lemma NatStrInjective(m: nat, n: nat)
    requires NatStr(m) == NatStr(n)
    ensures m == n
  {
    NatStrValue(m);
    NatStrValue(n);
  }

  /** Python's str.isspace() on one character: the ASCII controls \t to \r and \x1c to \x1f,
      the space, U+0085, U+00A0, U+1680, U+2000 to U+200A, U+2028, U+2029, U+202F, U+205F and
      U+3000. */
  predicate IsSpace(c: char) {
    '\t' <= c <= '\r' || '\U{001C}' <= c <= ' ' || c == '\U{0085}' || c == '\U{00A0}' ||
    c == '\U{1680}' || '\U{2000}' <= c <= '\U{200A}' || c == '\U{2028}' || c == '\U{2029}' ||
    c == '\U{202F}' || c == '\U{205F}' || c == '\U{3000}'
  }

  /** Python's str.strip() with no argument. */
  function Strip(s: string): (r: string)
    ensures |r| <= |s|
    ensures r != [] ==> !IsSpace(r[0]) && !IsSpace(r[|r| - 1])
  {
    if s != [] && IsSpace(s[0]) then Strip(s[1..])
    else if s != [] && IsSpace(s[|s| - 1]) then Strip(s[..|s| - 1])
    else s
  }

  /** How many characters Strip drops from the front of s. */
  function StripStart(s: string): (a: nat)
    ensures a + |Strip(s)| <= |s|
  {
    if s != [] && IsSpace(s[0]) then 1 + StripStart(s[1..])
    else if s != [] && IsSpace(s[|s| - 1]) then StripStart(s[..|s| - 1])
    else 0
  }

  /** Strip keeps one contiguous slice of s and drops only whitespace around it. */
  lemma {:induction false} StripTrims(s: string)
    ensures var a, r := StripStart(s), Strip(s);
      r == s[a..a + |r|] &&
      (forall k :: 0 <= k < a ==> IsSpace(s[k])) &&
      (forall k :: a + |r| <= k < |s| ==> IsSpace(s[k]))
  {
    if s != [] && IsSpace(s[0]) {
      StripTrims(s[1..]);
      StripFront(s, StripStart(s[1..]), Strip(s[1..]));
    } else if s != [] && IsSpace(s[|s| - 1]) {
      StripTrims(s[..|s| - 1]);
      StripBack(s, s[..|s| - 1], StripStart(s[..|s| - 1]), Strip(s[..|s| - 1]));
    }
  }

  /** A slice of s[1..] bordered by whitespace is one of s, moved on by one, when s[0] is
      whitespace too. */
  lemma StripFront(s: string, a: nat, r: string)
    requires s != [] && IsSpace(s[0]) && a + |r| <= |s| - 1
    requires r == s[1..][a..a + |r|]
    requires forall k :: 0 <= k < a ==> IsSpace(s[1..][k])
    requires forall k :: a + |r| <= k < |s| - 1 ==> IsSpace(s[1..][k])
    ensures r == s[a + 1..a + 1 + |r|]
    ensures forall k :: 0 <= k < a + 1 ==> IsSpace(s[k])
    ensures forall k :: a + 1 + |r| <= k < |s| ==> IsSpace(s[k])
  {
    forall k | 0 < k < a + 1 ensures IsSpace(s[k]) {
      assert s[k] == s[1..][k - 1];
    }
    forall k | a + 1 + |r| <= k < |s| ensures IsSpace(s[k]) {
      assert s[k] == s[1..][k - 1];
    }
  }

  /** A slice of t, s without its last character, bordered by whitespace is one of s when the
      last character of s is whitespace too. */
  lemma StripBack(s: string, t: string, a: nat, r: string)
    requires s != [] && IsSpace(s[|s| - 1]) && t == s[..|s| - 1] && a + |r| <= |t|
    requires r == t[a..a + |r|]
    requires forall k :: 0 <= k < a ==> IsSpace(t[k])
    requires forall k :: a + |r| <= k < |t| ==> IsSpace(t[k])
    ensures r == s[a..a + |r|]
    ensures forall k :: 0 <= k < a ==> IsSpace(s[k])
    ensures forall k :: a + |r| <= k < |s| ==> IsSpace(s[k])
  {
    forall k | 0 <= k < a ensures IsSpace(s[k]) {
      assert s[k] == t[k];
    }
    forall k | a + |r| <= k < |s| - 1 ensures IsSpace(s[k]) {
      assert s[k] == t[k];
    }
  }


  /** A decimal integer literal as int() accepts it: digits, with single underscores allowed
      between two digits. */
  predicate DigitGroups(t: string)
  {
    |t| > 0 && IsDigit(t[0]) && IsDigit(t[|t| - 1]) && forall i :: 0 <= i < |t| ==> GroupChar(t, i)
  }

  /** t[i] is a digit, or an underscore with a digit on either side. */
  predicate GroupChar(t: string, i: nat)
    requires i < |t|
  {
    IsDigit(t[i]) || (t[i] == '_' && 0 < i < |t| - 1 && IsDigit(t[i - 1]) && IsDigit(t[i + 1]))
  }

  /** The digits of s with the underscores removed. */
  function DropUnderscores(s: string): (r: string)
    ensures |r| <= |s|
    ensures (forall i :: 0 <= i < |s| ==> IsDigit(s[i]) || s[i] == '_') ==> AllDigits(r)
    ensures AllDigits(s) ==> r == s
    ensures forall i :: 0 <= i < |r| ==> r[i] != '_'
  {
    if s == [] then []
    else if s[0] == '_' then DropUnderscores(s[1..])
    else [s[0]] + DropUnderscores(s[1..])
  }

  /** The value int() gives a string of digit groups. */
  function GroupsValue(t: string): nat
    requires DigitGroups(t)
  {
    assert forall i :: 0 <= i < |t| ==> IsDigit(t[i]) || t[i] == '_' by {
      forall i | 0 <= i < |t| ensures IsDigit(t[i]) || t[i] == '_' {
        assert GroupChar(t, i);
      }
    }
    DigitsValue(DropUnderscores(t))
  }

  /** Python's int() on a string: surrounding whitespace, an optional sign, and digit groups of
      any script's decimal digits; None where Python raises ValueError. */
  function ParseInt(s: string): (r: Option<int>)
    ensures r.Some? ==> Strip(s) != []
    ensures r.Some? && Strip(s)[0] != '-' ==> r.value >= 0
    ensures Strip(s) != [] && AllDigits(Strip(s)) ==> r == Some(DigitsValue(Strip(s)))
  {
    var t := Strip(s);
    PlainDigitGroups(t);
    if |t| > 0 && (t[0] == '-' || t[0] == '+') then
      if DigitGroups(t[1..]) then
        var v: int := GroupsValue(t[1..]);
        Some(if t[0] == '-' then -v else v)
      else None
    else if DigitGroups(t) then Some(GroupsValue(t))
    else None
  }

  /** A plain run of digits is a single digit group worth its digits' value. */
  lemma PlainDigitGroups(t: string)
    ensures t != [] && AllDigits(t) ==> DigitGroups(t) && GroupsValue(t) == DigitsValue(t)
  {
    if t != [] && AllDigits(t) {
      assert forall i :: 0 <= i < |t| ==> GroupChar(t, i);
    }
  }

  /** The digits of the scripts the supported languages write in are decimal digits with their
      own values: Devanagari (Hindi, Sanskrit) from U+0966, Tamil from U+0BE6, Telugu from
      U+0C66 and Malayalam from U+0D66, like the ASCII digits from U+0030. */
  lemma ScriptDigits(d: nat)
    requires d < 10
    ensures IsDigit((0x30 + d) as char) && DigitValue((0x30 + d) as char) == d
    ensures IsDigit((0x966 + d) as char) && DigitValue((0x966 + d) as char) == d
    ensures IsDigit((0xBE6 + d) as char) && DigitValue((0xBE6 + d) as char) == d
    ensures IsDigit((0xC66 + d) as char) && DigitValue((0xC66 + d) as char) == d
    ensures IsDigit((0xD66 + d) as char) && DigitValue((0xD66 + d) as char) == d
  {
  }

  /** int() takes single underscores between digits: int("1_000") is 1000. */
  lemma IntUnderscoreSample()
    ensures ParseInt("1_000") == Some(1000)
  {
    StripKeeps("1_000");
    ThousandGroups();
    ParseUnsigned("1_000");
    ThousandDropped();
    ThousandValue();
  }

  lemma ThousandDropped()
    ensures DropUnderscores("1_000") == "1000"
  {
    var g := "1_000";
    assert DropUnderscores(g) == [g[0]] + DropUnderscores(g[1..]);
    assert g[1..][0] == '_' && g[1..][1..] == g[2..];
    assert g[2..] == "000" && AllDigits(g[2..]);
  }

  lemma ThousandGroups()
    ensures DigitGroups("1_000")
  {
    var g := "1_000";
    forall i | 0 <= i < |g| ensures GroupChar(g, i) {
      if i == 1 { assert g[0] == '1' && g[2] == '0'; }
    }
  }

  /** An unsigned stripped string of digit groups parses to their value. */
  lemma ParseUnsigned(t: string)
    requires Strip(t) == t && DigitGroups(t)
    ensures ParseInt(t) == Some(GroupsValue(t))
  {
  }

  lemma ThousandValue()
    ensures AllDigits("1000") && DigitsValue("1000") == 1000
  {
    assert "1000"[..3] == "100" && "100"[..2] == "10" && "10"[..1] == "1";
  }

  /** A string that neither starts nor ends with whitespace is its own strip(). */
  lemma StripKeeps(s: string)
    requires s != [] && !IsSpace(s[0]) && !IsSpace(s[|s| - 1])
    ensures Strip(s) == s
  {
  }

  /** int("1__000") and int("_1") raise ValueError. */
  lemma IntUnderscoreRejected()
    ensures ParseInt("1__000") == None && ParseInt("_1") == None
  {
    StripKeeps("1__000");
    assert !GroupChar("1__000", 1);
    StripKeeps("_1");
  }

  /** int() reads digits of other scripts: int(" \U{0967}\U{0968} ") (Devanagari one, two, between
      spaces) is 12. */
  lemma IntScriptSample()
    ensures ParseInt(" \U{0967}\U{0968} ") == Some(12)
  {
    var h := "\U{0967}\U{0968}";
    DevanagariStrip();
    PlainDigitGroups(h);
    ParseUnsigned(h);
    DevanagariValue();
  }

  lemma DevanagariStrip()
    ensures Strip(" \U{0967}\U{0968} ") == "\U{0967}\U{0968}"
    ensures AllDigits("\U{0967}\U{0968}")
  {
    var h := "\U{0967}\U{0968}";
    var s := " \U{0967}\U{0968} ";
    assert s[1..] == h + " " && (h + " ")[..2] == h;
    StripKeeps(h);
  }

  lemma DevanagariValue()
    ensures DigitsValue("\U{0967}\U{0968}") == 12
  {
    var h := "\U{0967}\U{0968}";
    assert h[..1] == "\U{0967}";
    assert DigitsValue(h) == DigitsValue(h[..1]) * 10 + 2;
  }

  /** Reading back what IntStr renders gives the number again: int(str(i)) == i. */
  lemma ParseIntStr(i: int)
    ensures ParseInt(IntStr(i)) == Some(i)
  {
    if i < 0 {
      ParseNegativeStr(i);
    } else {
      ParseNatStr(i);
    }
  }

  lemma ParseNegativeStr(i: int)
    requires i < 0
    ensures ParseInt(IntStr(i)) == Some(i)
  {
    var d := NatStr(-i);
    assert IntStr(i) == "-" + d;
    assert AllDigits(d) && DigitsValue(d) == -i by {
      NatStrValue(-i);
    }
    ParseSignedText(IntStr(i), d, i);
  }

  /** A text that is a minus sign followed by the digits of -i reads as i. */
  lemma ParseSignedText(s: string, d: string, i: int)
    requires d != [] && AllDigits(d) && s == "-" + d && DigitsValue(d) == -i
    ensures ParseInt(s) == Some(i)
  {
    ParseNegativeDigits(d);
  }

  /** A minus sign followed by decimal digits reads as the negated value of the digits. */
  lemma ParseNegativeDigits(d: string)
    requires d != [] && AllDigits(d)
    ensures var v: int := DigitsValue(d); ParseInt("-" + d) == Some(-v)
  {
    SignedStrip(d);
    PlainDigitGroups(d);
  }

  /** A minus sign before digits is not white space, and neither is the last digit. */
  lemma SignedStrip(d: string)
    requires d != [] && AllDigits(d)
    ensures Strip("-" + d) == "-" + d
    ensures ("-" + d)[0] == '-' && ("-" + d)[1..] == d
  {
    var s := "-" + d;
    assert s[1..] == d;
    assert s[|s| - 1] == d[|d| - 1];
    assert !IsSpace(s[0]) && !IsSpace(s[|s| - 1]);
  }

  lemma ParseNatStr(i: nat)
    ensures ParseInt(IntStr(i)) == Some(i)
  {
    var d := NatStr(i);
    assert !IsSpace(d[0]) && !IsSpace(d[|d| - 1]);
    assert Strip(d) == d;
    assert !(d[0] == '-' || d[0] == '+');
    NatStrValue(i);
    assert DropUnderscores(d) == d;
    assert DigitGroups(d);
  }

  function Pow10(k: nat): (p: nat)
    ensures p >= 1
  {
    if k == 0 then 1 else 10 * Pow10(k - 1)
  }

  /** 10^16, from where on Python prints a float in exponent form. */
  const ExponentFrom: nat := 10000000000000000

  /** A digit run without its trailing zeros; the leading digit always stays. */
  function TrimZeros(s: string): (t: string)
    requires |s| > 0
    ensures 0 < |t| <= |s| && t == s[..|t|]
    ensures forall k :: |t| <= k < |s| ==> s[k] == '0'
    ensures |t| > 1 ==> t[|t| - 1] != '0'
  {
    if |s| > 1 && s[|s| - 1] == '0' then TrimZeros(s[..|s| - 1]) else s
  }

  /** The mantissa of Python's exponent form: the first digit, then the others after a '.'
      when there are any. */
  function Mantissa(t: string): string
    requires |t| > 0
  {
    [t[0]] + (if |t| > 1 then "." + t[1..] else "")
  }

  /** A run of n >= 10^k prints with more than k digits. */
  lemma {:induction false} NatStrLength(n: nat, k: nat)
    requires n >= Pow10(k)
    ensures |NatStr(n)| > k
  {
    if k > 0 {
      assert n / 10 >= Pow10(k - 1);
      NatStrLength(n / 10, k - 1);
      assert NatStr(n) == NatStr(n / 10) + [DigitChar(n % 10)];
    }
  }

  /** Dropping trailing zeros divides the value by the matching power of ten. */
  lemma {:induction false} TrimZerosValue(s: string)
    requires |s| > 0 && AllDigits(s)
    ensures AllDigits(TrimZeros(s))
    ensures DigitsValue(s) == DigitsValue(TrimZeros(s)) * Pow10(|s| - |TrimZeros(s)|)
  {
    var t := TrimZeros(s);
    PrefixDigits(s, t);
    if |s| > 1 && s[|s| - 1] == '0' {
      var u := s[..|s| - 1];
      assert TrimZeros(u) == t;
      TrimZerosValue(u);
      assert DigitValue(s[|s| - 1]) == 0;
      assert DigitsValue(s) == DigitsValue(u) * 10;
      var a, p := DigitsValue(t), Pow10(|u| - |t|);
      assert Pow10(|s| - |t|) == 10 * p;
      assert DigitsValue(s) == a * p * 10;
      ShiftFactor(a, p);
    } else {
      assert t == s && Pow10(0) == 1;
    }
  }

  /** From 10^16 on, the digits of n without trailing zeros, scaled back by the exponent
      that follows them, give n again; the exponent is at least 16. */
  lemma ExponentDigits(n: nat)
    requires n >= ExponentFrom
    ensures var t, e := TrimZeros(NatStr(n)), |NatStr(n)| - 1;
      && e >= 16
      && t[|t| - 1] != '0'
      && AllDigits(t) && DigitsValue(t) * Pow10(e + 1 - |t|) == n
  {
    var s := NatStr(n);
    var t := TrimZeros(s);
    SixteenDigits();
    NatStrLength(n, 16);
    NatStrValue(n);
    TrimZerosValue(s);
    var e := |s| - 1;
    assert e + 1 - |t| == |s| - |t|;
    assert DigitsValue(t) * Pow10(e + 1 - |t|) == DigitsValue(s) == n;
    assert |t| == 1 ==> t[0] == s[0] != '0';
  }

  /** A prefix of a digit run is a digit run. */
  lemma PrefixDigits(s: string, t: string)
    requires AllDigits(s) && |t| <= |s| && t == s[..|t|]
    ensures AllDigits(t)
  {
    forall k | 0 <= k < |t| ensures IsDigit(t[k]) {
      assert t[k] == s[k];
    }
  }

  /** A factor of ten can move into the power it scales. */
  lemma ShiftFactor(a: nat, p: nat)
    ensures a * p * 10 == a * (10 * p)
  {
  }

  /** A mantissa of one digit joins its exponent directly. */
  lemma OneExponent(m: string, e: string, k: string)
    requires m == Mantissa("1") && e == k
    ensures m + "e+" + e == "1e+" + k
  {
    assert m == "1";
  }

  /** 10^k for k >= 16 is at least 10^16, and its digits are a one and k zeros. */
  lemma PowerOfTenDigits(k: nat)
    requires k >= 16
    ensures Pow10(k) >= ExponentFrom
    ensures |NatStr(Pow10(k))| == k + 1 && TrimZeros(NatStr(Pow10(k))) == "1"
  {
    SixteenDigits();
    PowerGrows(16, k);
    PowerShifted(k);
    ShiftedDigits(1, k);
    assert NatStr(1) == "1";
  }

  /** Powers of ten grow with the exponent. */
  lemma {:induction false} PowerGrows(j: nat, k: nat)
    requires j <= k
    ensures Pow10(j) <= Pow10(k)
  {
    if j < k {
      PowerGrows(j, k - 1);
    }
  }

  /** 10^k is a one followed by k zeros. */
  lemma {:induction false} PowerShifted(k: nat)
    ensures Pow10(k) == Shifted(1, k)
  {
    if k > 0 {
      PowerShifted(k - 1);
    }
  }

  /** The threshold is 10^16. */
  lemma SixteenDigits()
    ensures Pow10(16) == ExponentFrom
  {
    assert Pow10(4) == 10000;
    assert Pow10(8) == 10000 * Pow10(4);
    assert Pow10(12) == 10000 * Pow10(8);
    assert Pow10(16) == 10000 * Pow10(12);
  }

  /** m followed by k zeros. */
  function Shifted(m: nat, k: nat): nat
  {
    if k == 0 then m else 10 * Shifted(m, k - 1)
  }

  /** Appending k zeros lengthens the digits by k, and the mantissa drops them again. */
  lemma {:induction false} ShiftedDigits(m: nat, k: nat)
    requires m > 0
    ensures Shifted(m, k) > 0
    ensures |NatStr(Shifted(m, k))| == |NatStr(m)| + k
    ensures TrimZeros(NatStr(Shifted(m, k))) == TrimZeros(NatStr(m))
  {
    if k > 0 {
      ShiftedDigits(m, k - 1);
      TimesTenDigits(Shifted(m, k - 1));
    }
  }

  /** Multiplying a positive number by ten appends one zero to its digits. */
  lemma TimesTenDigits(n: nat)
    requires n > 0
    ensures NatStr(10 * n) == NatStr(n) + "0"
    ensures TrimZeros(NatStr(10 * n)) == TrimZeros(NatStr(n))
  {
    var s := NatStr(10 * n);
    assert (10 * n) / 10 == n && (10 * n) % 10 == 0;
    assert s == NatStr(n) + [DigitChar(0)];
    assert s[..|s| - 1] == NatStr(n);
  }

  /** The index of the first '.' in s, or |s| when there is none. */
  function DotIndex(s: string): (k: nat)
    ensures k <= |s|
    ensures forall j :: 0 <= j < k ==> s[j] != '.'
    ensures k < |s| ==> s[k] == '.'
  {
    if s == [] || s[0] == '.' then 0 else 1 + DotIndex(s[1..])
  }

  /** An unsigned decimal `digits[.digits]` with at least one digit, as a real. */
  function UnsignedDecimal(t: string): (r: Option<real>)
    ensures r.Some? ==> t != [] && r.value >= 0.0
  {
    var k := DotIndex(t);
    var whole := t[..k];
    var frac := if k < |t| then t[k + 1..] else [];
    if |whole| + |frac| > 0 && AllDigits(whole) && AllDigits(frac) then
      Some(DigitsValue(whole) as real + DigitsValue(frac) as real / Pow10(|frac|) as real)
    else None
  }

  /** A plain run of digits has no '.', and reads as its digits' value. */
  lemma PlainDecimal(t: string)
    ensures t != [] && AllDigits(t) ==> UnsignedDecimal(t) == Some(DigitsValue(t) as real)
  {
    if t != [] && AllDigits(t) {
      NoDotInDigits(t);
      assert t[..|t|] == t;
      assert DigitsValue([]) == 0;
    }
  }

  lemma NoDotInDigits(t: string)
    requires AllDigits(t)
    ensures DotIndex(t) == |t|
  {
    DotNotDigit();
  }

  lemma DotNotDigit()
    ensures !IsDigit('.')
  {
  }

  /** Python's float() on a string, for the forms `[sign]digits[.digits]` and
      `[sign].digits`; None where Python raises ValueError. */
  function ParseDecimal(s: string): (r: Option<real>)
    ensures r.Some? ==> Strip(s) != []
    ensures r.Some? && Strip(s)[0] != '-' ==> r.value >= 0.0
    ensures Strip(s) != [] && AllDigits(Strip(s)) ==> r == Some(DigitsValue(Strip(s)) as real)
  {
    PlainDecimal(Strip(s));
    var t := Strip(s);
    if |t| > 0 && (t[0] == '-' || t[0] == '+') then
      match UnsignedDecimal(t[1..])
      case Some(v) => Some(if t[0] == '-' then -v else v)
      case None => None
    else UnsignedDecimal(t)
  }

  function UpperChar(c: char): char
  {
    if 'a' <= c <= 'z' then (c as int - 32) as char else c
  }

  function LowerChar(c: char): char
  {
    if 'A' <= c <= 'Z' then (c as int + 32) as char else c
  }

  /** Python's str.upper() on ASCII text. */
  function Upper(s: string): (r: string)
    ensures |r| == |s|
    ensures forall i :: 0 <= i < |s| ==> r[i] == UpperChar(s[i])
  {
    if s == [] then [] else [UpperChar(s[0])] + Upper(s[1..])
  }

  /** Upper-casing agrees with a character-by-character check. */
  lemma UpperEach(s: string, u: string)
    requires |s| == |u|
    requires forall k :: 0 <= k < |s| ==> UpperChar(s[k]) == u[k]
    ensures Upper(s) == u
  {
  }

  /** Python's str.title() on ASCII text: a letter is upper-cased when the character before it
      is not a letter, and lower-cased otherwise; other characters are kept. */
  function Title(s: string): (r: string)
    ensures |r| == |s|
    ensures forall i :: 0 <= i < |s| && IsLetter(s[i]) && (i == 0 || !IsLetter(s[i - 1])) ==>
      r[i] == UpperChar(s[i])
    ensures forall i :: 0 <= i < |s| && IsLetter(s[i]) && i > 0 && IsLetter(s[i - 1]) ==>
      r[i] == LowerChar(s[i])
    ensures forall i :: 0 <= i < |s| && !IsLetter(s[i]) ==> r[i] == s[i]
  {
    TitleFrom(s, 0, false)
  }

  function TitleFrom(s: string, i: nat, afterLetter: bool): (r: string)
    requires i <= |s|
    requires i > 0 ==> afterLetter == IsLetter(s[i - 1])
    requires i == 0 ==> !afterLetter
    ensures |r| == |s| - i
    ensures forall j :: i <= j < |s| && IsLetter(s[j]) && (j == 0 || !IsLetter(s[j - 1])) ==>
      r[j - i] == UpperChar(s[j])
    ensures forall j :: i <= j < |s| && IsLetter(s[j]) && j > 0 && IsLetter(s[j - 1]) ==>
      r[j - i] == LowerChar(s[j])
    ensures forall j :: i <= j < |s| && !IsLetter(s[j]) ==> r[j - i] == s[j]
    decreases |s| - i
  {
    if i == |s| then []
    else
      var c := s[i];
      var d := if !IsLetter(c) then c else if afterLetter then LowerChar(c) else UpperChar(c);
      [d] + TitleFrom(s, i + 1, IsLetter(c))
  }

  /** pat occurs in text starting at index i. */
  predicate OccursAt(text: string, pat: string, i: nat)
  {
    i + |pat| <= |text| && text[i..i + |pat|] == pat
  }

  /** Python's `pat in text` for strings: pat occurs as a contiguous piece of text. */
  predicate Contains(text: string, pat: string)
  {
    exists i: nat :: i <= |text| && OccursAt(text, pat, i)
  }

  /** An executable decision procedure for Contains. */
  function ContainsFrom(text: string, pat: string, i: nat): (b: bool)
    requires i <= |text|
    ensures b <==> exists j: nat :: i <= j && OccursAt(text, pat, j)
    decreases |text| - i
  {
    if i + |pat| > |text| then false
    else if OccursAt(text, pat, i) then true
    else ContainsFrom(text, pat, i + 1)
  }

  function FindIn(text: string, pat: string): (b: bool)
    ensures b <==> Contains(text, pat)
  {
    ContainsFrom(text, pat, 0)
  }

  /** How many times c occurs in s. */
  function CountChar(s: string, c: char): (n: nat)
    ensures n <= |s|
  {
    if s == [] then 0 else (if s[0] == c then 1 else 0) + CountChar(s[1..], c)
  }

  lemma {:induction false} CountNone(s: string, c: char)
    requires forall k :: 0 <= k < |s| ==> s[k] != c
    ensures CountChar(s, c) == 0
  {
    if s != [] {
      CountNone(s[1..], c);
    }
  }

  /** Python's str.split(sep) for a one-character separator. */
  function Split(s: string, sep: char): (parts: seq<string>)
    ensures |parts| > 0
    ensures forall k :: 0 <= k < |parts| ==> sep !in parts[k]
  {
    if s == [] then [""]
    else
      var rest := Split(s[1..], sep);
      if s[0] == sep then [""] + rest else [[s[0]] + rest[0]] + rest[1..]
  }

  /** Splitting on a character yields one more piece than there are separators. */
  lemma {:induction false} SplitCount(s: string, sep: char)
    ensures |Split(s, sep)| == CountChar(s, sep) + 1
  {
    if s != [] {
      SplitCount(s[1..], sep);
    }
  }

  /** Python's sep.join(parts). */
  function Join(parts: seq<string>, sep: string): string
  {
    if parts == [] then ""
    else if |parts| == 1 then parts[0]
    else parts[0] + sep + Join(parts[1..], sep)
  }

  /** A join starts with the first part and ends with the last. */
  lemma {:induction false} JoinEnds(parts: seq<string>, sep: string)
    requires parts != []
    ensures |Join(parts, sep)| >= |parts[0]| && Join(parts, sep)[..|parts[0]|] == parts[0]
    ensures |Join(parts, sep)| >= |parts[|parts| - 1]|
    ensures Join(parts, sep)[|Join(parts, sep)| - |parts[|parts| - 1]|..] == parts[|parts| - 1]
  {
    if |parts| > 1 {
      JoinEnds(parts[1..], sep);
      var j := Join(parts, sep);
      var rest := Join(parts[1..], sep);
      assert j == parts[0] + sep + rest;
      assert j[|j| - |rest|..] == rest;
    }
  }
}
