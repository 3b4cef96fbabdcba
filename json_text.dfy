/**
 * The character-level pieces of the JSON projection (toml_json.cpp):
 * the per-character escaping of strings and keys, the decimal text an
 * output stream prints for an integer, and the `%04d` / `%02d` zero padding
 * of timestamp fields.
 */
module JsonText {

  import opened Engine

  const Backspace: char := '\U{8}'
  const FormFeed: char := '\U{C}'

  /** The seven characters print_escape_string rewrites. */
  predicate IsSpecial(c: char) {
    c == Backspace || c == '\t' || c == '\n' || c == FormFeed || c == '\r' || c == '"' || c == '\\'
  }

  /** The letter that follows the backslash in the escape of a special character. */
  function EscapeLetter(c: char): (r: char)
    requires IsSpecial(c)
    ensures IsEscapeLetter(r) && Unletter(r) == c
  {
    if c == Backspace then 'b'
    else if c == '\t' then 't'
    else if c == '\n' then 'n'
    else if c == FormFeed then 'f'
    else if c == '\r' then 'r'
    else c
  }

  /** The escape letters: b t n f r " \ */
  predicate IsEscapeLetter(c: char) {
    c == 'b' || c == 't' || c == 'n' || c == 'f' || c == 'r' || c == '"' || c == '\\'
  }

  /** The character an escape letter stands for. */
  function Unletter(c: char): (r: char)
    requires IsEscapeLetter(c)
    ensures IsSpecial(r)
  {
    if c == 'b' then Backspace
    else if c == 't' then '\t'
    else if c == 'n' then '\n'
    else if c == 'f' then FormFeed
    else if c == 'r' then '\r'
    else c
  }

  lemma LetterRoundTrip(c: char)
    requires IsEscapeLetter(c)
    ensures EscapeLetter(Unletter(c)) == c
  {
  }

  /** What print_escape_string writes for one character. */
  function EscapeChar(c: char): (r: string)
    ensures IsSpecial(c) ==> r == ['\\', EscapeLetter(c)] && IsEscapeLetter(r[1])
    ensures !IsSpecial(c) ==> r == [c]
  {
    if IsSpecial(c) then ['\\', EscapeLetter(c)] else [c]
  }

  /** What print_escape_string writes for a whole string. */
  function Escape(s: string): string {
    if s == [] then [] else EscapeChar(s[0]) + Escape(s[1..])
  }

  /**
   * Reads escaped text back: a backslash must start one of the seven
   * two-character escapes, and a special character may not appear bare.
   * None when the text is not the escape of anything.
   */
  function Unescape(e: string): Option<string> {
    if e == [] then Some([])
    else if e[0] == '\\' then
      if |e| >= 2 && IsEscapeLetter(e[1]) then
        match Unescape(e[2..])
        case Some(rest) => Some([Unletter(e[1])] + rest)
        case None => None
      else None
    else if IsSpecial(e[0]) then None
    else
      match Unescape(e[1..])
      case Some(rest) => Some([e[0]] + rest)
      case None => None
  }

  /** Escaping works character by character, so it distributes over concatenation. */
  lemma {:induction false} EscapeAppend(a: string, b: string)
    ensures Escape(a + b) == Escape(a) + Escape(b)
  {
    if a == [] {
      assert a + b == b;
    } else {
      assert (a + b)[0] == a[0];
      assert (a + b)[1..] == a[1..] + b;
      EscapeAppend(a[1..], b);
    }
  }

  /** A string without any of the seven special characters escapes to itself. */
  lemma {:induction false} EscapePlain(s: string)
    requires forall i :: 0 <= i < |s| ==> !IsSpecial(s[i])
    ensures Escape(s) == s
  {
    if s != [] {
      EscapePlain(s[1..]);
    }
  }

  /** Escaping is invertible: reading the output back gives the original string. */
  lemma {:induction false} UnescapeEscape(s: string)
    ensures Unescape(Escape(s)) == Some(s)
  {
    if s != [] {
      UnescapeEscape(s[1..]);
      var e := Escape(s);
      assert e == EscapeChar(s[0]) + Escape(s[1..]);
      if IsSpecial(s[0]) {
        assert e[0] == '\\' && e[1] == EscapeLetter(s[0]);
        assert e[2..] == Escape(s[1..]);
        assert [s[0]] + s[1..] == s;
      } else {
        assert e[0] == s[0];
        assert e[1..] == Escape(s[1..]);
        assert [s[0]] + s[1..] == s;
      }
    }
  }

  /** Every text that reads back is the escape of what it reads back to. */
  lemma {:induction false} EscapeUnescape(e: string, s: string)
    requires Unescape(e) == Some(s)
    ensures Escape(s) == e
  {
    if e != [] {
      if e[0] == '\\' {
        var rest := Unescape(e[2..]).value;
        EscapeUnescape(e[2..], rest);
        LetterRoundTrip(e[1]);
        assert s == [Unletter(e[1])] + rest;
        assert s[1..] == rest;
        assert e == ['\\', e[1]] + e[2..];
      } else {
        var rest := Unescape(e[1..]).value;
        EscapeUnescape(e[1..], rest);
        assert s == [e[0]] + rest;
        assert s[1..] == rest;
        assert e == [e[0]] + e[1..];
      }
    }
  }

  // ---- decimal text ----

  predicate IsDigit(c: char) { '0' <= c <= '9' }

  predicate AllDigits(s: string) {
    forall i :: 0 <= i < |s| ==> IsDigit(s[i])
  }

  function DigitChar(d: nat): (c: char)
    requires d < 10
    ensures IsDigit(c)
  {
    ['0', '1', '2', '3', '4', '5', '6', '7', '8', '9'][d]
  }

  function DigitValue(c: char): nat
    requires IsDigit(c)
  {
    (c as int - '0' as int) as nat
  }

  /** The number a string of decimal digits denotes (leading zeros allowed). */
  function DigitsValue(s: string): nat
    requires AllDigits(s)
  {
    if s == [] then 0 else DigitsValue(s[..|s| - 1]) * 10 + DigitValue(s[|s| - 1])
  }

  /** The shortest decimal text of `n`: no leading zero except for 0 itself. */
  function Digits(n: nat): (r: string)
    ensures 1 <= |r| && AllDigits(r)
    ensures |r| > 1 ==> r[0] != '0'
    ensures n < 10 <==> |r| == 1
  {
    if n < 10 then [DigitChar(n)] else Digits(n / 10) + [DigitChar(n % 10)]
  }

  function Pow10(k: nat): (p: nat)
    ensures p >= 1
  {
    if k == 0 then 1 else 10 * Pow10(k - 1)
  }

  /** A number below 10^k has at most k digits. */
  lemma {:induction false} DigitsLength(n: nat, k: nat)
    requires 1 <= k && n < Pow10(k)
    ensures |Digits(n)| <= k
  {
    if n >= 10 {
      assert k >= 2;
      DigitsLength(n / 10, k - 1);
    }
  }

  lemma {:induction false} DigitCharValue(d: nat)
    requires d < 10
    ensures DigitValue(DigitChar(d)) == d
  {
  }

  /** The digits of `n` denote `n`. */
  lemma {:induction false} DigitsDenote(n: nat)
    ensures DigitsValue(Digits(n)) == n
  {
    DigitCharValue(n % 10);
    if n >= 10 {
      DigitsDenote(n / 10);
      var r := Digits(n);
      assert r[..|r| - 1] == Digits(n / 10);
    }
  }

  function Zeros(k: int): (r: string)
    ensures |r| == if k < 0 then 0 else k
    ensures AllDigits(r)
    ensures forall i :: 0 <= i < |r| ==> r[i] == '0'
  {
    if k <= 0 then [] else ['0'] + Zeros(k - 1)
  }

  /** Leading zeros do not change the number a digit string denotes. */
  lemma {:induction false} LeadingZeros(k: int, d: string)
    requires AllDigits(d)
    ensures AllDigits(Zeros(k) + d) && DigitsValue(Zeros(k) + d) == DigitsValue(d)
  {
    var z := Zeros(k);
    if d == [] {
      assert z + d == z;
      AllZerosValue(z);
    } else {
      var d' := d[..|d| - 1];
      LeadingZeros(k, d');
      assert (z + d)[..|z + d| - 1] == z + d';
    }
  }

  lemma {:induction false} AllZerosValue(z: string)
    requires forall i :: 0 <= i < |z| ==> z[i] == '0'
    ensures AllDigits(z) && DigitsValue(z) == 0
  {
    if z != [] {
      AllZerosValue(z[..|z| - 1]);
    }
  }

  /** What `cout << i` prints for an integer: a minus sign when negative, then its digits. */
  function IntText(i: int): string {
    if i < 0 then "-" + Digits(-i) else Digits(i)
  }

  /** Reads an optionally signed decimal integer. */
  function ParseInt(s: string): Option<int> {
    if |s| >= 2 && s[0] == '-' && AllDigits(s[1..]) then Some(0 - DigitsValue(s[1..]))
    else if |s| >= 1 && AllDigits(s) then Some(DigitsValue(s))
    else None
  }

  /** The stream text of an integer reads back as that integer. */
  lemma IntTextRoundTrip(i: int)
    ensures ParseInt(IntText(i)) == Some(i)
  {
    if i < 0 {
      var d := Digits(-i);
      assert IntText(i) == "-" + d;
      SignedDenotes(-i, d);
    } else {
      var d := Digits(i);
      assert IntText(i) == d;
      UnsignedDenotes(i, d);
    }
  }

  lemma SignedDenotes(n: nat, d: string)
    requires d == Digits(n)
    ensures ParseInt("-" + d) == Some(0 - n)
  {
    DigitsDenote(n);
    ParseSigned(d);
  }

  lemma UnsignedDenotes(n: nat, d: string)
    requires d == Digits(n)
    ensures ParseInt(d) == Some(n)
  {
    DigitsDenote(n);
    ParseUnsigned(d);
  }

  lemma ParseSigned(d: string)
    requires 1 <= |d| && AllDigits(d)
    ensures ParseInt("-" + d) == Some(0 - DigitsValue(d))
  {
    assert ("-" + d)[1..] == d;
  }

  lemma ParseUnsigned(d: string)
    requires 1 <= |d| && AllDigits(d)
    ensures ParseInt(d) == Some(DigitsValue(d))
  {
    assert IsDigit(d[0]);
  }

  /**
   * The 10-byte buffer z4 and z2 format into holds nine characters and the
   * terminator: at most nine digits, or a sign and eight.
   */
  predicate FitsBuffer(i: int) {
    -99_999_999 <= i <= 999_999_999
  }

  function Max(a: int, b: int): int { if a < b then b else a }

  /**
   * sprintf's `%0<width>d`: a minus sign for negative numbers, then the
   * digits of the magnitude padded on the left with zeros until the whole
   * text is `width` characters; longer numbers are not cut.
   */
  function ZeroPad(i: int, width: nat): (r: string)
    requires FitsBuffer(i) && 1 <= width <= 9
    ensures |r| <= 9
    ensures 0 <= i ==> AllDigits(r) && DigitsValue(r) == i && |r| == Max(width, |Digits(i)|)
    ensures i < 0 ==> 2 <= |r| && r[0] == '-' && AllDigits(r[1..]) && DigitsValue(r[1..]) == -i
                      && |r| == Max(width, 1 + |Digits(-i)|)
  {
    if i < 0 then
      var p := PadNat(-i, width - 1);
      ShortDigits(-i);
      assert ("-" + p)[1..] == p;
      "-" + p
    else
      PadNat(i, width)
  }

  /** The digits of `n` with zeros in front until there are `width` characters. */
  function PadNat(n: nat, width: nat): (r: string)
    requires n <= 999_999_999 && width <= 9
    ensures 1 <= |r| <= 9 && |r| == Max(width, |Digits(n)|)
    ensures AllDigits(r) && DigitsValue(r) == n
  {
    LeadingZeros(width - |Digits(n)|, Digits(n));
    DigitsDenote(n);
    ShortDigits(n);
    Zeros(width - |Digits(n)|) + Digits(n)
  }

  /** How many digits the numbers that z4, z2 and their buffer deal with have at most. */
  lemma ShortDigits(n: nat)
    ensures n <= 99 ==> |Digits(n)| <= 2
    ensures n <= 999 ==> |Digits(n)| <= 3
    ensures n <= 9999 ==> |Digits(n)| <= 4
    ensures n <= 99_999_999 ==> |Digits(n)| <= 8
    ensures n <= 999_999_999 ==> |Digits(n)| <= 9
  {
    Pow10Values();
    if n <= 99 { DigitsLength(n, 2); }
    if n <= 999 { DigitsLength(n, 3); }
    if n <= 9999 { DigitsLength(n, 4); }
    if n <= 99_999_999 { DigitsLength(n, 8); }
    if n <= 999_999_999 { DigitsLength(n, 9); }
  }

  lemma Pow10Values()
    ensures Pow10(2) == 100 && Pow10(3) == 1000 && Pow10(4) == 10000
    ensures Pow10(8) == 100_000_000 && Pow10(9) == 1_000_000_000
  {
    assert Pow10(1) == 10;
    assert Pow10(2) == 100;
    assert Pow10(3) == 1000;
    assert Pow10(4) == 10000;
    assert Pow10(5) == 100000;
    assert Pow10(6) == 1000000;
    assert Pow10(7) == 10000000;
    assert Pow10(8) == 100000000;
  }

  /** z4 in toml_json.cpp: `%04d`. */
  function Z4(i: Int32): (r: string)
    requires FitsBuffer(i)
    ensures 0 <= i <= 9999 ==> |r| == 4 && AllDigits(r) && DigitsValue(r) == i
    ensures 0 <= i ==> AllDigits(r) && DigitsValue(r) == i
    ensures i < 0 ==> 2 <= |r| && r[0] == '-' && AllDigits(r[1..]) && DigitsValue(r[1..]) == -i
    ensures -999 <= i < 0 ==> |r| == 4
  {
    assert 0 <= i ==> |Digits(i)| <= 4 || i > 9999 by {
      if 0 <= i { ShortDigits(i); }
    }
    assert -999 <= i < 0 ==> |Digits(-i)| <= 3 by {
      if -999 <= i < 0 { ShortDigits(-i); }
    }
    ZeroPad(i, 4)
  }

  /** z2 in toml_json.cpp: `%02d`. */
  function Z2(i: Int32): (r: string)
    requires FitsBuffer(i)
    ensures 0 <= i <= 99 ==> |r| == 2 && AllDigits(r) && DigitsValue(r) == i
    ensures 0 <= i ==> AllDigits(r) && DigitsValue(r) == i
    ensures i < 0 ==> 2 <= |r| && r[0] == '-' && AllDigits(r[1..]) && DigitsValue(r[1..]) == -i
    ensures -9 <= i < 0 ==> |r| == 2
  {
    assert 0 <= i ==> |Digits(i)| <= 2 || i > 99 by {
      if 0 <= i { ShortDigits(i); }
    }
    ZeroPad(i, 2)
  }
}
