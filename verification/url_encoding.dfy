/**
 * The two percent-encodings the adapters use: the application/x-www-form-urlencoded
 * serializer behind `URLSearchParams.toString()` (WHATWG URL Standard, section 5.2)
 * and `encodeURIComponent` (ECMAScript, section 19.2.6.5). Both encode a string
 * as UTF-8 (RFC 3629, section 3) and percent-escape every byte outside their
 * unreserved set with upper-case hexadecimal digits.
 */
module UrlEncoding {
  import opened JsCore

  /** A byte value. */
  type Byte = b: int | 0 <= b < 256

  /** The UTF-8 encoding of one Unicode scalar value. */
  function Utf8(c: char): (bytes: seq<Byte>)
    ensures 1 <= |bytes| <= 4
    ensures (c as int) < 0x80 <==> |bytes| == 1
    ensures |bytes| == 1 ==> bytes[0] == c as int
  {
    var cp := c as int;
    if cp < 0x80 then [cp]
    else if cp < 0x800 then [0xC0 + cp / 64, 0x80 + cp % 64]
    else if cp < 0x10000 then [0xE0 + cp / 4096, 0x80 + (cp / 64) % 64, 0x80 + cp % 64]
    else [0xF0 + cp / 262144, 0x80 + (cp / 4096) % 64, 0x80 + (cp / 64) % 64, 0x80 + cp % 64]
  }

  function HexDigit(d: nat): (c: char)
    requires d < 16
    ensures IsHexDigit(c)
  {
    "0123456789ABCDEF"[d]
  }

  predicate IsHexDigit(c: char) {
    ('0' <= c <= '9') || ('A' <= c <= 'F')
  }

  predicate IsAlphaNumeric(c: char) {
    ('0' <= c <= '9') || ('A' <= c <= 'Z') || ('a' <= c <= 'z')
  }

  /** Bytes the form serializer leaves as they are: alphanumerics and `*-._`. */
  predicate FormUnreserved(b: Byte) {
    IsAlphaNumeric(b as char) || b == '*' as int || b == '-' as int || b == '.' as int || b == '_' as int
  }

  /** Bytes `encodeURIComponent` leaves as they are: alphanumerics and `-_.!~*'()`. */
  predicate ComponentUnreserved(b: Byte) {
    IsAlphaNumeric(b as char) || b == '-' as int || b == '_' as int || b == '.' as int
    || b == '!' as int || b == '~' as int || b == '*' as int || b == '\'' as int
    || b == '(' as int || b == ')' as int
  }

  /** Every character either encoding can produce. */
  predicate IsEncodedChar(c: char) {
    IsAlphaNumeric(c) || c == '*' || c == '-' || c == '.' || c == '_' || c == '!' || c == '~'
    || c == '\'' || c == '(' || c == ')' || c == '+' || c == '%'
  }

  predicate AllEncoded(t: string) {
    forall i :: 0 <= i < |t| ==> IsEncodedChar(t[i])
  }

  function PercentByte(b: Byte): (t: string)
    ensures AllEncoded(t)
  {
    ['%', HexDigit(b / 16), HexDigit(b % 16)]
  }

  /** The form serializer on one byte: space becomes `+`. */
  function FormByte(b: Byte): (t: string)
    ensures AllEncoded(t)
  {
    if b == 0x20 then "+"
    else if FormUnreserved(b) then [b as char]
    else PercentByte(b)
  }

  /** `encodeURIComponent` on one byte: space becomes `%20`. */
  function ComponentByte(b: Byte): (t: string)
    ensures AllEncoded(t)
  {
    if ComponentUnreserved(b) then [b as char] else PercentByte(b)
  }

  function EncodeBytes(bytes: seq<Byte>, form: bool): (t: string)
    ensures AllEncoded(t)
  {
    if bytes == [] then ""
    else (if form then FormByte(bytes[0]) else ComponentByte(bytes[0])) + EncodeBytes(bytes[1..], form)
  }

  function Encode(s: string, form: bool): (t: string)
    ensures AllEncoded(t)
  {
    if s == [] then "" else EncodeBytes(Utf8(s[0]), form) + Encode(s[1..], form)
  }

  /** The form-urlencoded serialization of one string. */
  function FormEncode(s: string): (t: string)
    ensures AllEncoded(t)
  {
    Encode(s, true)
  }

  /** `encodeURIComponent(s)`. */
  function EncodeUriComponent(s: string): (t: string)
    ensures AllEncoded(t)
  {
    Encode(s, false)
  }

  /** Neither encoding ever produces the pair separators `&` and `=`. */
  lemma EncodedHasNoDelimiters(t: string)
    requires AllEncoded(t)
    ensures '&' !in t && '=' !in t
  {
    forall i | 0 <= i < |t| ensures t[i] != '&' && t[i] != '=' {
      assert IsEncodedChar(t[i]);
    }
  }

  /** Text made of ASCII letters and digits only. */
  predicate AlphaNumericText(s: string) {
    s == [] || (IsAlphaNumeric(s[0]) && AlphaNumericText(s[1..]))
  }

  /** The form serializer keeps alphanumeric ASCII text as it is. */
  lemma {:induction false} FormEncodeAlphaNumeric(s: string)
    requires AlphaNumericText(s)
    ensures FormEncode(s) == s
  {
    if s != [] {
      assert Utf8(s[0]) == [s[0] as int];
      assert EncodeBytes(Utf8(s[0]), true) == [s[0]];
      FormEncodeAlphaNumeric(s[1..]);
    }
  }
}
