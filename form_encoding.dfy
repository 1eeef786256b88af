/**
 * PHP's `urlencode`: PHP's own variant of the
 * `application/x-www-form-urlencoded` encoding, applied byte by byte to a
 * PHP string.
 *
 * A PHP string is a byte string. The model represents it by the Unicode
 * text it holds in UTF-8, so `urlencode` is applied to the UTF-8 bytes of
 * a Dafny `string`. ASCII letters, digits, `-`, `_` and `.` stay as they
 * are, a space becomes `+`, and every other byte becomes `%` and two
 * upper-case hexadecimal digits.
 */
module FormEncoding {
  import opened Wrappers

  type Byte = b: int | 0 <= b < 256

  /** The UTF-8 bytes of one character (a Unicode scalar value). */
  function Utf8Char(c: char): (bs: seq<Byte>)
    ensures 1 <= |bs| <= 4
    ensures (c as int < 0x80) == (bs == [c as int])
  {
    var n := c as int;
    if n < 0x80 then [n]
    else if n < 0x800 then [0xC0 + n / 0x40, 0x80 + n % 0x40]
    else if n < 0x1_0000 then [0xE0 + n / 0x1000, 0x80 + n / 0x40 % 0x40, 0x80 + n % 0x40]
    // a scalar value is at most 0x10FFFF, so n / 0x40000 is at most 4 and `% 8` keeps it
    else [0xF0 + n / 0x4_0000 % 8, 0x80 + n / 0x1000 % 0x40, 0x80 + n / 0x40 % 0x40, 0x80 + n % 0x40]
  }

  /** The UTF-8 bytes of a string, which is what PHP holds for it. */
  function Utf8(s: string): (bs: seq<Byte>)
    ensures |bs| >= |s|
  {
    if |s| == 0 then [] else Utf8Char(s[0]) + Utf8(s[1..])
  }

  /** A byte `urlencode` leaves as it is: an ASCII letter or digit, `-`, `_` or `.`. */
  predicate Unreserved(b: Byte)
  {
    || '0' as int <= b <= '9' as int
    || 'A' as int <= b <= 'Z' as int
    || 'a' as int <= b <= 'z' as int
    || b == '-' as int || b == '_' as int || b == '.' as int
  }

  const HexDigits: string := "0123456789ABCDEF"

  /** `urlencode` of one byte. */
  function EncodeByte(b: Byte): string
  {
    if Unreserved(b) then [b as char]
    else if b == ' ' as int then "+"
    else ['%', HexDigits[b / 16], HexDigits[b % 16]]
  }

  /** A character that can occur in the output of `urlencode`. */
  predicate FormChar(c: char)
  {
    (c as int < 0x80 && Unreserved(c as int)) || c == '+' || c == '%'
  }

  /** `urlencode` of a byte string: each byte encoded in order. */
  function EncodeBytes(bs: seq<Byte>): (r: string)
    ensures |r| >= |bs|
  {
    if |bs| == 0 then "" else EncodeByte(bs[0]) + EncodeBytes(bs[1..])
  }

  /** Every character of an encoded byte string is one `urlencode` may write. */
  lemma {:induction false} EncodedCharsAreFormChars(bs: seq<Byte>)
    ensures forall i :: 0 <= i < |EncodeBytes(bs)| ==> FormChar(EncodeBytes(bs)[i])
  {
    if |bs| > 0 {
      EncodedCharsAreFormChars(bs[1..]);
      var head, r := EncodeByte(bs[0]), EncodeBytes(bs[1..]);
      forall i | 0 <= i < |head + r|
        ensures FormChar((head + r)[i])
      {
        if i >= |head| {
          assert (head + r)[i] == r[i - |head|];
        }
      }
    }
  }

  /** PHP's `urlencode(s)`. */
  function UrlEncode(s: string): string
  {
    EncodeBytes(Utf8(s))
  }

  /**
   * An encoded value never holds a separator of a query string or a path
   * (`&`, `=`, `/`, `?`, `#`) or a space.
   */
  lemma UrlEncodeHasNoSeparators(s: string)
    ensures forall i :: 0 <= i < |UrlEncode(s)| ==> FormChar(UrlEncode(s)[i])
    ensures var r := UrlEncode(s); '&' !in r && '=' !in r && '/' !in r && '?' !in r && '#' !in r && ' ' !in r
  {
    EncodedCharsAreFormChars(Utf8(s));
  }

  /** The value of a hexadecimal digit of either case. */
  function HexValue(c: char): Option<nat>
  {
    if '0' <= c <= '9' then Some(c as int - '0' as int)
    else if 'A' <= c <= 'F' then Some(c as int - 'A' as int + 10)
    else if 'a' <= c <= 'f' then Some(c as int - 'a' as int + 10)
    else None
  }

  function Prepend(b: Byte, rest: Option<seq<Byte>>): Option<seq<Byte>>
  {
    match rest
    case None => None
    case Some(bs) => Some([b] + bs)
  }

  /**
   * A form decoder for PHP's variant of the encoding (the inverse PHP
   * calls `urldecode`, made strict): `+` is a space, `%XY` the byte with
   * hexadecimal value XY, an unreserved character itself; anything else
   * is malformed.
   */
  function FormDecode(t: string): Option<seq<Byte>>
    decreases |t|
  {
    if |t| == 0 then Some([])
    else if t[0] == '+' then Prepend(' ' as int, FormDecode(t[1..]))
    else if t[0] == '%' then
      if |t| >= 3 && HexValue(t[1]).Some? && HexValue(t[2]).Some?
         && HexValue(t[1]).value < 16 && HexValue(t[2]).value < 16 then
        Prepend(HexValue(t[1]).value * 16 + HexValue(t[2]).value, FormDecode(t[3..]))
      else None
    else if t[0] as int < 0x80 && Unreserved(t[0] as int) then Prepend(t[0] as int, FormDecode(t[1..]))
    else None
  }

  /** Every hexadecimal digit `urlencode` writes reads back as its value. */
  lemma HexDigitValue(n: nat)
    requires n < 16
    ensures HexValue(HexDigits[n]) == Some(n)
  {
  }

  /** Decoding the encoding of one byte followed by anything gives that byte first. */
  lemma DecodeEncodedByte(b: Byte, rest: string)
    ensures FormDecode(EncodeByte(b) + rest) == Prepend(b, FormDecode(rest))
  {
    var t := EncodeByte(b) + rest;
    if Unreserved(b) {
      assert t[1..] == rest;
    } else if b == ' ' as int {
      assert t[1..] == rest;
    } else {
      HexDigitValue(b / 16);
      HexDigitValue(b % 16);
      assert t[1] == HexDigits[b / 16] && t[2] == HexDigits[b % 16];
      assert t[3..] == rest;
    }
  }

  /** Form decoding inverts `urlencode` on every byte string. */
  lemma {:induction false} DecodeEncodeBytes(bs: seq<Byte>)
    ensures FormDecode(EncodeBytes(bs)) == Some(bs)
  {
    if |bs| > 0 {
      DecodeEncodedByte(bs[0], EncodeBytes(bs[1..]));
      DecodeEncodeBytes(bs[1..]);
      assert [bs[0]] + bs[1..] == bs;
    }
  }

  /** `urlencode` loses nothing: decoding it gives back the string's UTF-8 bytes. */
  lemma UrlEncodeRoundTrip(s: string)
    ensures FormDecode(UrlEncode(s)) == Some(Utf8(s))
  {
    DecodeEncodeBytes(Utf8(s));
  }

  /** A space becomes `+`, not `%20`. */
  lemma SpaceBecomesPlus()
    ensures UrlEncode("a b") == "a+b"
  {
  }
}
