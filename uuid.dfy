/**
 * The two uses the service makes of the google/uuid library: `uuid.Parse` as a
 * validity test for strings, and `UUID.String()`, the canonical text of a
 * 16-byte UUID (section 3 of RFC 4122).
 *
 * Go measures string lengths in bytes and this model in characters. Every
 * position the parser checks must hold an ASCII hex digit or hyphen, so for a
 * string of Unicode characters the two agree: a non-ASCII character either sits
 * at a checked position or makes the byte length differ from every accepted one.
 */
module Uuid {
  import opened Prelude

  /** The characters `xtob` accepts as hex digits. */
  predicate IsHexDigit(c: char) {
    '0' <= c <= '9' || 'a' <= c <= 'f' || 'A' <= c <= 'F'
  }

  predicate IsHyphenPosition(i: int) {
    i == 8 || i == 13 || i == 18 || i == 23
  }

  /** xxxxxxxx-xxxx-xxxx-xxxx-xxxxxxxxxxxx: hyphens at 8, 13, 18, 23, hex digits everywhere else. */
  predicate IsCanonicalForm(s: string) {
    |s| == 36 &&
    forall i :: 0 <= i < 36 ==> if IsHyphenPosition(i) then s[i] == '-' else IsHexDigit(s[i])
  }

  function AsciiLower(c: char): char {
    if 'A' <= c <= 'Z' then (c as int + 32) as char else c
  }

  /** `strings.EqualFold` against an ASCII text with no k or s (whose folds leave ASCII). */
  predicate EqualFoldAscii(s: string, t: string) {
    |s| == |t| && forall i :: 0 <= i < |s| ==> AsciiLower(s[i]) == AsciiLower(t[i])
  }

  /**
   * The strings `uuid.Parse` accepts: the canonical form, the same behind a
   * case-insensitive "urn:uuid:" prefix, the same between two arbitrary
   * single-byte characters (the library does not check that they are braces),
   * or 32 hex digits without hyphens.
   */
  predicate ValidUuid(s: string) {
    || IsCanonicalForm(s)
    || (|s| == 45 && EqualFoldAscii(s[..9], "urn:uuid:") && IsCanonicalForm(s[9..]))
    || (|s| == 38 && s[0] < 128 as char && s[37] < 128 as char && IsCanonicalForm(s[1..37]))
    || (|s| == 32 && forall i :: 0 <= i < 32 ==> IsHexDigit(s[i]))
  }

  /** Go's `uuid.UUID`: sixteen bytes. */
  type UUID = s: seq<byte> | |s| == 16 witness seq(16, _ => 0)

  function HexDigit(n: int): (c: char)
    requires 0 <= n < 16
    ensures IsHexDigit(c)
  {
    "0123456789abcdef"[n]
  }

  /** How many hyphens of the canonical form precede position `i`. */
  function HyphensBefore(i: int): nat {
    if i < 8 then 0 else if i < 13 then 1 else if i < 18 then 2 else if i < 23 then 3 else 4
  }

  /**
   * Character `i` of `UUID.String()`: the sixteen bytes as lower-case hex
   * digits in order, high nibble first, with a hyphen after bytes 4, 6, 8 and 10.
   */
  function UuidChar(u: UUID, i: int): (c: char)
    requires 0 <= i < 36
    ensures if IsHyphenPosition(i) then c == '-' else IsHexDigit(c)
  {
    if IsHyphenPosition(i) then '-'
    else
      var nibble := i - HyphensBefore(i);
      var b := u[nibble / 2] as int;
      if nibble % 2 == 0 then HexDigit(b / 16) else HexDigit(b % 16)
  }

  /** `UUID.String()`: the canonical form, which `uuid.Parse` always accepts. */
  function UuidString(u: UUID): (s: string)
    ensures IsCanonicalForm(s)
    ensures ValidUuid(s)
  {
    seq(36, i requires 0 <= i < 36 => UuidChar(u, i))
  }

  /** Strings the parser rejects: the empty string and plain words have no accepted length. */
  lemma RejectsMalformed()
    ensures !ValidUuid("")
    ensures !ValidUuid("invalid-uuid") && !ValidUuid("invalidUuid")
    ensures !ValidUuid("c1d1b4a0-8c2f-4d0e-9b7a-5e3f2a1c0d9")
  {
  }

  /**
   * Around any canonical string the parser also accepts a "urn:uuid:" prefix in
   * any letter case, and any two ASCII characters in place of the braces.
   */
  lemma AcceptsVariants(c: string, prefix: string, open: char, close: char)
    requires IsCanonicalForm(c) && EqualFoldAscii(prefix, "urn:uuid:")
    requires open < 128 as char && close < 128 as char
    ensures ValidUuid(c) && ValidUuid(prefix + c) && ValidUuid([open] + c + [close])
  {
    assert (prefix + c)[..9] == prefix && (prefix + c)[9..] == c;
    assert ([open] + c + [close])[1..37] == c;
  }
}
