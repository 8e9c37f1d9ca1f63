/**
 * The generic helpers of internal/infrastructure/utils. Go strings are byte
 * sequences, so `LcFirst` is modelled on bytes, with the UTF-8 decoding that
 * Go's `range` over a string performs.
 */
module Utils {
  import opened Prelude

  /** Go's `Contains`: a scan of the slice that stops at the first element equal to the needle. */
  method Contains<T(==)>(needle: T, haystack: seq<T>) returns (found: bool)
    ensures found <==> needle in haystack
  {
    var i := 0;
    while i < |haystack|
      invariant 0 <= i <= |haystack|
      invariant needle !in haystack[..i]
    {
      if haystack[i] == needle {
        return true;
      }
      i := i + 1;
    }
    return false;
  }

  // ---------------------------------------------------------------------------
  // Runes and UTF-8, as Go's unicode/utf8 package treats them

  /** `utf8.RuneError`, the rune a malformed encoding decodes to. */
  const RuneError: int := 0xFFFD

  /** A Unicode scalar value: what a Go rune holds after decoding. */
  predicate ValidRune(r: int) {
    0 <= r < 0xD800 || 0xE000 <= r <= 0x10FFFF
  }

  predicate IsContinuation(b: byte) {
    0x80 <= b <= 0xBF
  }

  /** A decoded rune and the number of bytes it occupied. */
  datatype Decoded = Decoded(rune: int, width: nat)

  /**
   * The first rune of a non-empty string and its width, as `utf8.DecodeRuneInString`
   * (and so `for i, v := range s`) computes them: a malformed or truncated
   * sequence yields `RuneError` with width 1.
   */
  function DecodeFirst(s: seq<byte>): (d: Decoded)
    requires |s| > 0
    ensures 1 <= d.width <= 4 && d.width <= |s|
    ensures ValidRune(d.rune)
    ensures s[0] < 0x80 ==> d == Decoded(s[0] as int, 1)
  {
    var b0 := s[0];
    if b0 < 0x80 then
      Decoded(b0 as int, 1)
    else if 0xC2 <= b0 <= 0xDF then
      if |s| >= 2 && IsContinuation(s[1]) then
        Decoded((b0 as int - 0xC0) * 64 + (s[1] as int - 0x80), 2)
      else Decoded(RuneError, 1)
    else if 0xE0 <= b0 <= 0xEF then
      var lo: byte := if b0 == 0xE0 then 0xA0 else 0x80;
      var hi: byte := if b0 == 0xED then 0x9F else 0xBF;
      if |s| >= 3 && lo <= s[1] <= hi && IsContinuation(s[2]) then
        var r := (b0 as int - 0xE0) * 4096 + (s[1] as int - 0x80) * 64 + (s[2] as int - 0x80);
        assert b0 == 0xED ==> r < 0xD800;
        Decoded(r, 3)
      else Decoded(RuneError, 1)
    else if 0xF0 <= b0 <= 0xF4 then
      var lo: byte := if b0 == 0xF0 then 0x90 else 0x80;
      var hi: byte := if b0 == 0xF4 then 0x8F else 0xBF;
      if |s| >= 4 && lo <= s[1] <= hi && IsContinuation(s[2]) && IsContinuation(s[3]) then
        Decoded((b0 as int - 0xF0) * 262144 + (s[1] as int - 0x80) * 4096
                + (s[2] as int - 0x80) * 64 + (s[3] as int - 0x80), 4)
      else Decoded(RuneError, 1)
    else
      Decoded(RuneError, 1)
  }

  /** `string(r)` for a rune: its UTF-8 encoding; an invalid rune encodes as `RuneError`. */
  function Encode(r: int): (e: seq<byte>)
    ensures 1 <= |e| <= 4
  {
    if !ValidRune(r) then [0xEF, 0xBF, 0xBD]
    else if r < 0x80 then [r as byte]
    else if r < 0x800 then [(0xC0 + r / 64) as byte, (0x80 + r % 64) as byte]
    else if r < 0x10000 then
      [(0xE0 + r / 4096) as byte, (0x80 + (r / 64) % 64) as byte, (0x80 + r % 64) as byte]
    else
      [(0xF0 + r / 262144) as byte, (0x80 + (r / 4096) % 64) as byte,
       (0x80 + (r / 64) % 64) as byte, (0x80 + r % 64) as byte]
  }

  /** Decoding the encoding of a rune gives the rune back, whatever follows it. */
  lemma DecodeEncode(r: int, rest: seq<byte>)
    requires ValidRune(r)
    ensures DecodeFirst(Encode(r) + rest) == Decoded(r, |Encode(r)|)
  {
    if r < 0x80 {
    } else if r < 0x800 {
      DecodeEncodeTwo(r, rest);
    } else if r < 0x10000 {
      DecodeEncodeThree(r, rest);
    } else {
      DecodeEncodeFour(r, rest);
    }
  }

  lemma DecodeEncodeTwo(r: int, rest: seq<byte>)
    requires 0x80 <= r < 0x800
    ensures DecodeFirst(Encode(r) + rest) == Decoded(r, 2)
  {
    DivMod64(r);
    DecodeTwo(r / 64, r % 64, rest);
  }

  lemma DecodeEncodeThree(r: int, rest: seq<byte>)
    requires 0x800 <= r < 0x10000 && ValidRune(r)
    ensures DecodeFirst(Encode(r) + rest) == Decoded(r, 3)
  {
    var q := r / 64;
    DivMod64(r);
    DivMod64(q);
    DivDiv64(r);
    DecodeThree(q / 64, q % 64, r % 64, rest);
  }

  lemma DecodeEncodeFour(r: int, rest: seq<byte>)
    requires 0x10000 <= r <= 0x10FFFF
    ensures DecodeFirst(Encode(r) + rest) == Decoded(r, 4)
  {
    var q := r / 64;
    var p := q / 64;
    DivMod64(r);
    DivMod64(q);
    DivMod64(p);
    DivDiv64(r);
    DivDiv64(q);
    assert r / 262144 == p / 64 by { DivDiv4096(r); }
    DecodeFour(p / 64, p % 64, q % 64, r % 64, rest);
  }

  lemma DivMod64(n: int)
    requires n >= 0
    ensures n == (n / 64) * 64 + n % 64 && 0 <= n % 64 < 64 && n / 64 >= 0
  {
  }

  lemma DivDiv64(n: int)
    requires n >= 0
    ensures n / 4096 == (n / 64) / 64
  {
    var q := n / 64;
    DivMod64(n);
    DivMod64(q);
    assert n == (q / 64) * 4096 + ((q % 64) * 64 + n % 64);
  }

  lemma DivDiv4096(n: int)
    requires n >= 0
    ensures n / 262144 == (n / 4096) / 64
  {
    var q := n / 4096;
    var p := q / 64;
    assert n == q * 4096 + n % 4096;
    assert q == p * 64 + q % 64;
    assert n == p * 262144 + ((q % 64) * 4096 + n % 4096);
  }

  lemma DecodeTwo(a: int, b: int, rest: seq<byte>)
    requires 2 <= a < 32 && 0 <= b < 64
    ensures DecodeFirst([(0xC0 + a) as byte, (0x80 + b) as byte] + rest) == Decoded(a * 64 + b, 2)
  {
  }

  lemma DecodeThree(a: int, b: int, c: int, rest: seq<byte>)
    requires 0 <= a < 16 && 0 <= b < 64 && 0 <= c < 64
    requires a == 0 ==> b >= 0x20
    requires a == 0xD ==> b < 0x20
    ensures DecodeFirst([(0xE0 + a) as byte, (0x80 + b) as byte, (0x80 + c) as byte] + rest)
         == Decoded(a * 4096 + b * 64 + c, 3)
  {
  }

  lemma DecodeFour(a: int, b: int, c: int, d: int, rest: seq<byte>)
    requires 0 <= a <= 4 && 0 <= b < 64 && 0 <= c < 64 && 0 <= d < 64
    requires a == 0 ==> b >= 0x10
    requires a == 4 ==> b < 0x10
    ensures DecodeFirst([(0xF0 + a) as byte, (0x80 + b) as byte, (0x80 + c) as byte, (0x80 + d) as byte] + rest)
         == Decoded(a * 262144 + b * 4096 + c * 64 + d, 4)
  {
  }

  /**
   * `unicode.ToLower` on the runes this model knows the case mapping of: ASCII
   * letters and the Latin-1 capitals U+00C0..U+00DE (except U+00D7, the
   * multiplication sign). Every other rune is its own lower case here.
   */
  function ToLower(r: int): (l: int)
    ensures ValidRune(r) ==> ValidRune(l)
    ensures 'A' as int <= r <= 'Z' as int ==> l == r + 32
    ensures !('A' as int <= r <= 'Z' as int) && r < 0x80 ==> l == r
  {
    if 'A' as int <= r <= 'Z' as int then r + 32
    else if 0xC0 <= r <= 0xDE && r != 0xD7 then r + 32
    else r
  }

  /**
   * Go's `LcFirst` as written: the loop returns on its first iteration with the
   * lowered first rune followed by `str[i+1:]`, i.e. everything after the FIRST
   * BYTE, whatever the width of the first rune.
   */
  function LcFirst(str: seq<byte>): (r: seq<byte>)
    ensures str == [] ==> r == []
  {
    if str == [] then []
    else Encode(ToLower(DecodeFirst(str).rune)) + str[1..]
  }

  /** On a string that starts with an ASCII byte, `LcFirst` lowers that byte and copies the rest. */
  lemma LcFirstAscii(str: seq<byte>)
    requires |str| > 0 && str[0] < 0x80
    ensures |LcFirst(str)| == |str|
    ensures LcFirst(str)[1..] == str[1..]
    ensures LcFirst(str)[0] as int == ToLower(str[0] as int)
  {
  }

  /**
   * The discrepancy: for "Éa" (bytes C3 89 61) the continuation byte 89 of "É"
   * survives behind the encoding C3 A9 of "é", giving bytes that are not UTF-8.
   */
  lemma LcFirstKeepsContinuationByte()
    ensures LcFirst([0xC3, 0x89, 0x61]) == [0xC3, 0xA9, 0x89, 0x61]
    ensures LcFirst([0xC3, 0x89, 0x61]) != LcFirstCorrected([0xC3, 0x89, 0x61])
  {
    assert DecodeFirst([0xC3, 0x89, 0x61]) == Decoded(0xC9, 2);
    assert LcFirstCorrected([0xC3, 0x89, 0x61]) == [0xC3, 0xA9, 0x61];
  }

  /** `LcFirst` with the slice taken after the whole first rune (`str[i+width:]`). */
  function LcFirstCorrected(str: seq<byte>): (r: seq<byte>)
    ensures str == [] ==> r == []
    ensures str != [] ==>
      var d := DecodeFirst(str);
      var n := |Encode(ToLower(d.rune))|;
      && n <= |r|
      && DecodeFirst(r) == Decoded(ToLower(d.rune), n)
      && r[n..] == str[d.width..]
  {
    if str == [] then []
    else
      var d := DecodeFirst(str);
      var head := Encode(ToLower(d.rune));
      DecodeEncode(ToLower(d.rune), str[d.width..]);
      assert (head + str[d.width..])[|head|..] == str[d.width..];
      head + str[d.width..]
  }

  /**
   * The two agree exactly when the first rune is one byte wide, as every ASCII
   * character is; on a wider first rune the as-written result is longer.
   */
  lemma LcFirstAgreesOnSingleByteRune(str: seq<byte>)
    requires |str| > 0
    ensures LcFirst(str) == LcFirstCorrected(str) <==> DecodeFirst(str).width == 1
    ensures DecodeFirst(str).width > 1 ==> |LcFirst(str)| > |LcFirstCorrected(str)|
  {
    var d := DecodeFirst(str);
    var head := Encode(ToLower(d.rune));
    assert |LcFirst(str)| == |head| + |str| - 1;
    assert |LcFirstCorrected(str)| == |head| + |str| - d.width;
  }
}
