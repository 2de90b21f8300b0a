/**
 * Hexadecimal escapes of character codes, as fed to the runtime's `unescape`
 * (scripts/js-obfuscator.js:1048-1049 and the `unescape("%..")` fallbacks of the
 * character table). Two escape forms decode to exactly one character: `%XX`
 * (two hex digits, decoded by `unescape`) and `\uXXXX` (four hex digits,
 * decoded by the string literal it is written in).
 */
module Escape {
  import opened Wrappers

  const HexDigits: string := "0123456789abcdef"

  predicate IsHexDigit(c: char) {
    '0' <= c <= '9' || 'a' <= c <= 'f'
  }

  predicate AllHex(s: string) {
    forall i :: 0 <= i < |s| ==> IsHexDigit(s[i])
  }

  function DigitValue(c: char): (v: nat)
    requires IsHexDigit(c)
    ensures v < 16 && HexDigits[v] == c
  {
    if '0' <= c <= '9' then c as int - '0' as int else c as int - 'a' as int + 10
  }

  /** The value of a string of hex digits, most significant first. */
  function HexValue(s: string): nat
    requires AllHex(s)
  {
    if s == [] then 0 else HexValue(s[..|s| - 1]) * 16 + DigitValue(s[|s| - 1])
  }

  function Pow16(k: nat): (p: nat)
    ensures p >= 1
  {
    if k == 0 then 1 else 16 * Pow16(k - 1)
  }

  /** `n.toString(16)`: lower-case hex digits, no leading zeros ("0" for zero). */
  function Hex(n: nat): (h: string)
    ensures 1 <= |h| && AllHex(h)
  {
    if n < 16 then [HexDigits[n]] else Hex(n / 16) + [HexDigits[n % 16]]
  }

  /** `Hex` is undone by `HexValue`. */
  lemma {:induction false} HexRoundTrip(n: nat)
    ensures HexValue(Hex(n)) == n
  {
    if n >= 16 {
      HexRoundTrip(n / 16);
      var h := Hex(n);
      assert h[..|h| - 1] == Hex(n / 16);
    }
  }

  /** `Hex(n)` has at most `k` digits exactly when `n < 16^k`. */
  lemma {:induction false} HexLength(n: nat, k: nat)
    requires k >= 1
    ensures |Hex(n)| <= k <==> n < Pow16(k)
  {
    if n >= 16 {
      if k == 1 {
        assert Pow16(1) == 16;
      } else {
        HexLength(n / 16, k - 1);
      }
    } else {
      if k > 1 {
        PowMonotone(1, k);
      }
    }
  }

  lemma {:induction false} PowMonotone(j: nat, k: nat)
    requires j <= k
    ensures Pow16(j) <= Pow16(k)
  {
    if j < k {
      PowMonotone(j, k - 1);
    }
  }

  function Zeros(k: nat): (z: string)
    ensures |z| == k && AllHex(z)
  {
    if k == 0 then [] else Zeros(k - 1) + ['0']
  }

  /** Left-pads a hex string with zeros to width `w`. */
  function Pad(s: string, w: nat): (r: string)
    requires AllHex(s)
    ensures AllHex(r) && |r| == if |s| < w then w else |s|
  {
    if |s| < w then Zeros(w - |s|) + s else s
  }

  lemma {:induction false} ZerosValue(k: nat)
    ensures HexValue(Zeros(k)) == 0
  {
    if k > 0 {
      ZerosValue(k - 1);
      assert Zeros(k)[..k - 1] == Zeros(k - 1);
    }
  }

  /** Leading zeros do not change the value. */
  lemma {:induction false} ZerosPrefixValue(k: nat, s: string)
    requires AllHex(s)
    ensures AllHex(Zeros(k) + s) && HexValue(Zeros(k) + s) == HexValue(s)
  {
    if s == [] {
      assert Zeros(k) + s == Zeros(k);
      ZerosValue(k);
    } else {
      var t := s[..|s| - 1];
      ZerosPrefixValue(k, t);
      assert (Zeros(k) + s)[..|Zeros(k) + s| - 1] == Zeros(k) + t;
    }
  }

  /** `c.charCodeAt()`: the UTF-16 code unit of a character; for a character outside
      the basic plane that is its high surrogate. */
  function CharCode(c: char): (code: nat)
    ensures code < 0x10000
    ensures c as int < 0x10000 ==> code == c as int
  {
    if c as int < 0x10000 then c as int else 0xD800 + (c as int - 0x10000) / 0x400
  }

  /**
   * `unescape` of a single escape written with the lower-case digits of `Hex`:
   * `%` and two digits, or `\u` and four, decode to the code they spell. Every
   * other text is `None` here; for `%` followed by one or three digits that
   * matches `unescape`, which does not turn them into one character.
   */
  function ParseEscape(s: string): Option<nat> {
    if |s| == 3 && s[0] == '%' && AllHex(s[1..]) then Some(HexValue(s[1..]))
    else if |s| == 6 && s[0] == '\\' && s[1] == 'u' && AllHex(s[2..]) then Some(HexValue(s[2..]))
    else None
  }

  /** The characters an escape is made of: `%`, `\`, `u` and hex digits. */
  predicate EscapeAlphabet(e: string) {
    forall i :: 0 <= i < |e| ==> e[i] == '%' || e[i] == '\\' || e[i] == 'u' || IsHexDigit(e[i])
  }

  /** The escape the encoder writes, as written: `\u` before four hex digits, `%`
      before any other number of them (no zero padding). */
  function EscapeAsWritten(code: nat): (e: string)
    ensures EscapeAlphabet(e)
  {
    var h := Hex(code);
    if |h| == 4 then "\\u" + h else "%" + h
  }

  /** The escape with the digits zero-padded to the width of its form. */
  function EscapeFixed(code: nat): (e: string)
    requires code < 0x10000
    ensures |e| >= 3 && (e[0] == '%' || e[0] == '\\')
    ensures EscapeAlphabet(e)
  {
    if code < 256 then "%" + Pad(Hex(code), 2) else "\\u" + Pad(Hex(code), 4)
  }

  /** Every code of the basic plane is escaped to a form that decodes back to it. */
  lemma EscapeFixedRoundTrip(code: nat)
    requires code < 0x10000
    ensures ParseEscape(EscapeFixed(code)) == Some(code)
  {
    var h := Hex(code);
    HexRoundTrip(code);
    assert Pow16(2) == 256 && Pow16(4) == 0x10000;
    if code < 256 {
      HexLength(code, 2);
      var e := EscapeFixed(code);
      assert e[1..] == Pad(h, 2);
      if |h| < 2 {
        ZerosPrefixValue(2 - |h|, h);
      }
    } else {
      HexLength(code, 4);
      var e := EscapeFixed(code);
      assert e[2..] == Pad(h, 4);
      if |h| < 4 {
        ZerosPrefixValue(4 - |h|, h);
      }
    }
  }

  /** Where the written escape already has the full width of its form, it is the fixed one. */
  lemma EscapeAsWrittenAgrees(code: nat)
    requires 16 <= code < 256 || 0x1000 <= code < 0x10000
    ensures EscapeAsWritten(code) == EscapeFixed(code)
  {
    assert Pow16(1) == 16 && Pow16(2) == 256 && Pow16(3) == 0x1000 && Pow16(4) == 0x10000;
    if code < 256 {
      HexLength(code, 1);
      HexLength(code, 2);
    } else {
      HexLength(code, 3);
      HexLength(code, 4);
    }
  }

  /** As written, a tab (code 9) becomes "%9" and U+0100 becomes "%100": neither
      decodes to the character. */
  lemma EscapeAsWrittenUnpadded()
    ensures EscapeAsWritten(9) == "%9" && ParseEscape(EscapeAsWritten(9)) == None
    ensures EscapeAsWritten(0x100) == "%100" && ParseEscape(EscapeAsWritten(0x100)) == None
  {
    assert Hex(0x100) == Hex(16) + ['0'];
    assert Hex(16) == Hex(1) + ['0'];
  }
}
