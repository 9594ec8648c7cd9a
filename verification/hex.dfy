/**
 * Fixed-width unsigned integers and the hexadecimal text forms used by the
 * simulator's signature dump (`%08x`), by the firmware test helpers
 * (`0x` + two lower-case digits, eight upper-case digits, `0x` + sixteen
 * upper-case digits) and by the compliance runner's `int(line, 16)`.
 *
 * A right shift by `4 * k` of an unsigned value is division by 16, `k` times
 * (`Shr4`), and `& 0xF` is `% 16`, so nibble `i` of `v` is `NibbleAt(v, i)`.
 */
module HexFormat {

  type u8 = x: int | 0 <= x < 0x100
  type u32 = x: int | 0 <= x < 0x1_0000_0000
  type u64 = x: int | 0 <= x < 0x1_0000_0000_0000_0000
  type Nibble = x: int | 0 <= x < 16

  datatype Option<T> = None | Some(value: T)

  const U32_MODULUS: int := 0x1_0000_0000

  function Pow16(n: nat): (r: nat)
    ensures r >= 1
  {
    if n == 0 then 1 else 16 * Pow16(n - 1)
  }

  /** `v >> (4 * k)` for an unsigned `v`. */
  function Shr4(v: nat, k: nat): nat
  {
    if k == 0 then v else Shr4(v / 16, k - 1)
  }

  /** `(v >> (4 * i)) & 0xF`: nibble `i` of `v`, nibble 0 the least significant. */
  function NibbleAt(v: nat, i: nat): Nibble
  {
    Shr4(v, i) % 16
  }

  /** `n < 10 ? n + '0' : n - 10 + 'a'` */
  function LowerDigit(n: Nibble): (c: char)
  {
    if n < 10 then ('0' as int + n) as char else ('a' as int + (n - 10)) as char
  }

  /** `n < 10 ? '0' + n : 'A' + (n - 10)` */
  function UpperDigit(n: Nibble): (c: char)
  {
    if n < 10 then ('0' as int + n) as char else ('A' as int + (n - 10)) as char
  }

  function Digit(n: Nibble, upper: bool): char
  {
    if upper then UpperDigit(n) else LowerDigit(n)
  }

  /** The `hex_chars[]` lookup table of the 64-bit printers. */
  const UPPER_HEX_CHARS: string := "0123456789ABCDEF"

  lemma UpperHexCharsIsUpperDigit(n: Nibble)
    ensures |UPPER_HEX_CHARS| == 16 && UPPER_HEX_CHARS[n] == UpperDigit(n)
  {
  }

  /** The value of one hexadecimal digit, either letter case, as Python's `int(s, 16)` reads it. */
  function DigitValue(c: char): (r: Option<Nibble>)
    ensures r.Some? <==> ('0' <= c <= '9' || 'a' <= c <= 'f' || 'A' <= c <= 'F')
  {
    if '0' <= c <= '9' then Some(c as int - '0' as int)
    else if 'a' <= c <= 'f' then Some(c as int - 'a' as int + 10)
    else if 'A' <= c <= 'F' then Some(c as int - 'A' as int + 10)
    else None
  }

  lemma DigitValueOfDigit(n: Nibble, upper: bool)
    ensures DigitValue(Digit(n, upper)) == Some(n)
  {
  }

  /**
   * `n` hexadecimal digits of `v`, most significant first (the low `4 * n`
   * bits of `v`), as `%0nx` prints them (or `%0nX` when `upper`).
   */
  function HexDigits(v: nat, n: nat, upper: bool): (s: string)
    ensures |s| == n
  {
    if n == 0 then [] else HexDigits(v / 16, n - 1, upper) + [Digit(v % 16, upper)]
  }

  /** Big-endian value of a string of hexadecimal digits; `None` if a character is not one. */
  function ParseHex(s: string): Option<nat>
  {
    if s == [] then Some(0)
    else
      match (ParseHex(s[..|s| - 1]), DigitValue(s[|s| - 1]))
      case (Some(p), Some(d)) => Some(16 * p + d)
      case _ => None
  }

  /** Position `n - 1 - i` of the digit string holds nibble `i`: most significant first. */
  lemma {:induction false} HexDigitsAt(v: nat, n: nat, upper: bool, i: nat)
    requires i < n
    ensures HexDigits(v, n, upper)[n - 1 - i] == Digit(NibbleAt(v, i), upper)
  {
    if i > 0 {
      HexDigitsAt(v / 16, n - 1, upper, i - 1);
      assert HexDigits(v, n, upper)[n - 1 - i] == HexDigits(v / 16, n - 1, upper)[n - 2 - (i - 1)];
    }
  }

  /** Reading the digits back yields the value, for every value that fits in `n` digits. */
  lemma {:induction false} HexDigitsRoundTrip(v: nat, n: nat, upper: bool)
    requires v < Pow16(n)
    ensures ParseHex(HexDigits(v, n, upper)) == Some(v)
  {
    if n > 0 {
      var s := HexDigits(v, n, upper);
      HexDigitsRoundTrip(v / 16, n - 1, upper);
      assert s[..n - 1] == HexDigits(v / 16, n - 1, upper);
      DigitValueOfDigit(v % 16, upper);
    }
  }

  /** Digit strings of one value in either letter case read back as the same integer. */
  lemma HexDigitsCaseInsensitive(v: nat, n: nat)
    requires v < Pow16(n)
    ensures ParseHex(HexDigits(v, n, true)) == ParseHex(HexDigits(v, n, false))
  {
    HexDigitsRoundTrip(v, n, true);
    HexDigitsRoundTrip(v, n, false);
  }

  /** A leading zero digit does not change the value read. */
  lemma {:induction false} ParseHexLeadingZero(s: string)
    ensures ParseHex(['0'] + s) == ParseHex(s)
  {
    if s != [] {
      var t := ['0'] + s;
      assert t[..|t| - 1] == ['0'] + s[..|s| - 1];
      assert t[|t| - 1] == s[|s| - 1];
      ParseHexLeadingZero(s[..|s| - 1]);
    } else {
      var z: string := ['0'];
      assert z[..0] == [];
    }
  }

  /** Every value fits in its width's digit count: a byte in 2, a word in 8, a double word in 16. */
  lemma WidthsFit()
    ensures Pow16(2) == 0x100 && Pow16(8) == U32_MODULUS
    ensures Pow16(16) == 0x1_0000_0000_0000_0000
  {
  }

  /** Writing `b` then `c` after `a` is writing `b + c` after it. */
  lemma AppendAssoc<T>(a: seq<T>, b: seq<T>, c: seq<T>)
    ensures a + (b + c) == (a + b) + c
  {
  }

  /** A write's text sits right after what was written before it, whatever follows. */
  lemma Framed<T>(a: seq<T>, b: seq<T>, c: seq<T>)
    ensures (a + b + c)[..|a|] == a
    ensures (a + b + c)[|a|..|a| + |b|] == b
  {
  }

  /** A slice of a slice is a slice. */
  lemma SliceOfSlice<T>(s: seq<T>, i: nat, j: nat, k: nat)
    requires i + k <= j <= |s|
    ensures s[i..j][k..] == s[i + k..j]
  {
  }

  /**
   * `print_byte` / `rvx_test_print_byte`: `"0x"`, then the high and the low
   * nibble of the byte as lower-case digits.
   */
  function ByteHex(b: u8): (s: string)
    ensures |s| == 4
  {
    "0x" + [LowerDigit(NibbleAt(b, 1)), LowerDigit(NibbleAt(b, 0))]
  }

  /** The two digits after the prefix are the byte's, most significant first, and read back as the byte. */
  lemma ByteHexRoundTrip(b: u8)
    ensures ByteHex(b)[..2] == "0x"
    ensures ByteHex(b)[2..] == HexDigits(b, 2, false)
    ensures ParseHex(ByteHex(b)[2..]) == Some(b as nat)
  {
    HexDigitsAt(b, 2, false, 0);
    HexDigitsAt(b, 2, false, 1);
    WidthsFit();
    HexDigitsRoundTrip(b, 2, false);
    assert ByteHex(b)[2..] == HexDigits(b, 2, false);
  }

  /**
   * The `str_val` fill of every `print_byte`: `'0'`, `'x'`, then the high
   * nibble `(b >> 4) & 0x0F` and the low nibble `b & 0x0F` as lower-case
   * digits. The terminating NUL is not part of the text written.
   */
  method FillByteBuffer(b: u8) returns (str: array<char>)
    ensures fresh(str)
    ensures str[..] == ByteHex(b)
  {
    var high := Shr4(b, 1) % 16;
    var low := b % 16;
    str := new char[4];
    str[0] := '0';
    str[1] := 'x';
    str[2] := if high < 10 then ('0' as int + high) as char else ('a' as int + (high - 10)) as char;
    str[3] := if low < 10 then ('0' as int + low) as char else ('a' as int + (low - 10)) as char;
    assert str[..] == ByteHex(b);
  }

  /** Eight upper-case digits of a 32-bit word, most significant first, no prefix. */
  function WordHexUpper(w: u32): (s: string)
    ensures |s| == 8
    ensures forall i :: 0 <= i < 8 ==> s[7 - i] == UpperDigit(NibbleAt(w, i))
    ensures ParseHex(s) == Some(w as nat)
  {
    var s := HexDigits(w, 8, true);
    forall i | 0 <= i < 8 ensures s[7 - i] == UpperDigit(NibbleAt(w, i)) {
      HexDigitsAt(w, 8, true, i);
    }
    WidthsFit();
    HexDigitsRoundTrip(w, 8, true);
    s
  }

  /** `%08x`: eight zero-padded lower-case digits of a 32-bit word. */
  function WordHexLower(w: u32): (s: string)
    ensures |s| == 8
    ensures forall i :: 0 <= i < 8 ==> s[7 - i] == LowerDigit(NibbleAt(w, i))
    ensures ParseHex(s) == Some(w as nat)
  {
    var s := HexDigits(w, 8, false);
    forall i | 0 <= i < 8 ensures s[7 - i] == LowerDigit(NibbleAt(w, i)) {
      HexDigitsAt(w, 8, false, i);
    }
    WidthsFit();
    HexDigitsRoundTrip(w, 8, false);
    s
  }

  /** `"0x"` and sixteen upper-case digits of a 64-bit value, most significant first. */
  function DoubleWordHex(v: u64): (s: string)
    ensures |s| == 18 && s[..2] == "0x"
    ensures forall i :: 0 <= i < 16 ==> s[17 - i] == UPPER_HEX_CHARS[NibbleAt(v, i)]
    ensures ParseHex(s[2..]) == Some(v as nat)
  {
    var d := HexDigits(v, 16, true);
    var s := "0x" + d;
    forall i | 0 <= i < 16 ensures s[17 - i] == UPPER_HEX_CHARS[NibbleAt(v, i)] {
      HexDigitsAt(v, 16, true, i);
      UpperHexCharsIsUpperDigit(NibbleAt(v, i));
    }
    WidthsFit();
    HexDigitsRoundTrip(v, 16, true);
    assert s[2..] == d;
    s
  }

  /**
   * The buffer fill of `rvx_test_print_double_word_hex` and of the timer
   * test's `print_double_word_hex`: `buffer[0..1] = "0x"`, then
   * `buffer[17 - i] = hex_chars[(value >> (i * 4)) & 0xF]` for `i` in 0..15.
   * The terminating NUL is not part of the text written.
   */
  method FillDoubleWordBuffer(value: u64) returns (buffer: array<char>)
    ensures fresh(buffer)
    ensures buffer[..] == DoubleWordHex(value)
  {
    buffer := new char[18];
    buffer[0] := '0';
    buffer[1] := 'x';
    for i := 0 to 16
      invariant buffer[0] == '0' && buffer[1] == 'x'
      invariant forall j :: 0 <= j < i ==> buffer[17 - j] == UPPER_HEX_CHARS[NibbleAt(value, j)]
    {
      UpperHexCharsIsUpperDigit(NibbleAt(value, i));
      buffer[17 - i] := UPPER_HEX_CHARS[NibbleAt(value, i)];
    }
    var s := DoubleWordHex(value);
    forall k | 0 <= k < 18 ensures buffer[k] == s[k] {
      if k >= 2 {
        var j := 17 - k;
        assert buffer[17 - j] == UPPER_HEX_CHARS[NibbleAt(value, j)] == s[17 - j];
      }
    }
  }
}
