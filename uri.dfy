/**
 * `encodeURIComponent`, used to put a message into a WhatsApp link: every
 * character outside the unreserved set is written as the `%XX` escapes of
 * its UTF-8 bytes. Dafny's `char` is a Unicode scalar value, so the lone
 * surrogates on which the JavaScript function throws cannot occur.
 */
module UriComponent {
  import opened Common

  newtype byte = x: int | 0 <= x < 256

  /** The characters `encodeURIComponent` leaves as they are. */
  predicate IsUnreserved(c: char) {
    ('A' <= c <= 'Z') || ('a' <= c <= 'z') || ('0' <= c <= '9')
    || c == '-' || c == '_' || c == '.' || c == '!' || c == '~'
    || c == '*' || c == '\'' || c == '(' || c == ')'
  }

  /** The UTF-8 encoding of one code point. */
  function Utf8(c: char): (r: seq<byte>)
    ensures 1 <= |r| <= 4
    ensures |r| == 1 <==> c as int < 0x80
  {
    var cp := c as int;
    if cp < 0x80 then [cp as byte]
    else if cp < 0x800 then [(0xC0 + cp / 64) as byte, (0x80 + cp % 64) as byte]
    else if cp < 0x10000 then
      [(0xE0 + cp / 4096) as byte, (0x80 + cp / 64 % 64) as byte, (0x80 + cp % 64) as byte]
    else
      [(0xF0 + cp / 262144) as byte, (0x80 + cp / 4096 % 64) as byte,
       (0x80 + cp / 64 % 64) as byte, (0x80 + cp % 64) as byte]
  }

  function Utf8String(s: string): seq<byte>
    decreases |s|
  {
    if s == [] then [] else Utf8(s[0]) + Utf8String(s[1..])
  }

  /** An upper-case hexadecimal digit, as `encodeURIComponent` writes them. */
  function HexDigit(d: int): char
    requires 0 <= d < 16
  {
    if d < 10 then ('0' as int + d) as char else ('A' as int + d - 10) as char
  }

  predicate IsHexDigit(c: char) {
    ('0' <= c <= '9') || ('A' <= c <= 'F') || ('a' <= c <= 'f')
  }

  function HexValue(c: char): (v: int)
    requires IsHexDigit(c)
    ensures 0 <= v < 16
  {
    if '0' <= c <= '9' then c as int - '0' as int
    else if 'A' <= c <= 'F' then c as int - 'A' as int + 10
    else c as int - 'a' as int + 10
  }

  function PercentEscapes(bs: seq<byte>): string
    decreases |bs|
  {
    if bs == [] then []
    else ['%', HexDigit(bs[0] as int / 16), HexDigit(bs[0] as int % 16)] + PercentEscapes(bs[1..])
  }

  function EncodeChar(c: char): string {
    if IsUnreserved(c) then [c] else PercentEscapes(Utf8(c))
  }

  /** `encodeURIComponent(s)`. */
  function Encode(s: string): string
    decreases |s|
  {
    if s == [] then [] else EncodeChar(s[0]) + Encode(s[1..])
  }

  /**
   * The first half of `decodeURIComponent`: each `%XX` escape becomes the byte
   * it names and every other ASCII character stands for itself. `None` for a
   * malformed escape or a non-ASCII character.
   */
  function DecodeToBytes(s: string): Option<seq<byte>>
    decreases |s|
  {
    if s == [] then Some([])
    else if s[0] == '%' then
      if |s| >= 3 && IsHexDigit(s[1]) && IsHexDigit(s[2]) then
        match DecodeToBytes(s[3..])
        case None => None
        case Some(rest) => Some([(HexValue(s[1]) * 16 + HexValue(s[2])) as byte] + rest)
      else None
    else if s[0] as int < 0x80 then
      match DecodeToBytes(s[1..])
      case None => None
      case Some(rest) => Some([s[0] as int as byte] + rest)
    else None
  }

  lemma HexRoundTrip(d: int)
    requires 0 <= d < 16
    ensures IsHexDigit(HexDigit(d)) && HexValue(HexDigit(d)) == d
  {
  }

  /** Decoding a string made of whole escapes and plain characters works piece by piece. */
  lemma {:induction false} DecodeAppend(a: string, b: string)
    requires DecodeToBytes(a).Some? && DecodeToBytes(b).Some?
    ensures DecodeToBytes(a + b) == Some(DecodeToBytes(a).value + DecodeToBytes(b).value)
    decreases |a|
  {
    if a == [] {
      assert a + b == b;
      assert DecodeToBytes(a).value == [];
      assert [] + DecodeToBytes(b).value == DecodeToBytes(b).value;
    } else if a[0] == '%' {
      assert (a + b)[..3] == a[..3];
      assert (a + b)[3..] == a[3..] + b;
      DecodeAppend(a[3..], b);
      var x := [(HexValue(a[1]) * 16 + HexValue(a[2])) as byte];
      var r, y := DecodeToBytes(a[3..]).value, DecodeToBytes(b).value;
      assert DecodeToBytes(a) == Some(x + r);
      assert DecodeToBytes(a + b) == Some(x + (r + y));
      assert x + (r + y) == (x + r) + y;
    } else {
      assert (a + b)[0] == a[0];
      assert (a + b)[1..] == a[1..] + b;
      DecodeAppend(a[1..], b);
      var x := [a[0] as int as byte];
      var r, y := DecodeToBytes(a[1..]).value, DecodeToBytes(b).value;
      assert DecodeToBytes(a) == Some(x + r);
      assert DecodeToBytes(a + b) == Some(x + (r + y));
      assert x + (r + y) == (x + r) + y;
    }
  }

  lemma {:induction false} DecodeEscapes(bs: seq<byte>)
    ensures DecodeToBytes(PercentEscapes(bs)) == Some(bs)
    decreases |bs|
  {
    if bs != [] {
      var b := bs[0] as int;
      HexRoundTrip(b / 16);
      HexRoundTrip(b % 16);
      var s := PercentEscapes(bs);
      DecodeEscapes(bs[1..]);
      assert s[3..] == PercentEscapes(bs[1..]);
      assert HexValue(s[1]) * 16 + HexValue(s[2]) == b;
      assert bs == [bs[0]] + bs[1..];
    }
  }

  lemma DecodeEncodeChar(c: char)
    ensures DecodeToBytes(EncodeChar(c)) == Some(Utf8(c))
  {
    if !IsUnreserved(c) {
      DecodeEscapes(Utf8(c));
    } else {
      var e := EncodeChar(c);
      assert e == [c] && c as int < 0x80;
      assert e[1..] == [];
      assert DecodeToBytes(e) == Some([e[0] as int as byte] + []);
      assert [e[0] as int as byte] + [] == [c as int as byte] == Utf8(c);
    }
  }

  /**
   * The partner of `Encode`: decoding an encoded message gives back exactly
   * the UTF-8 bytes of the message, so nothing is lost or changed.
   */
  lemma {:induction false} DecodeEncode(s: string)
    ensures DecodeToBytes(Encode(s)) == Some(Utf8String(s))
    decreases |s|
  {
    if s != [] {
      DecodeEncodeChar(s[0]);
      DecodeEncode(s[1..]);
      DecodeAppend(EncodeChar(s[0]), Encode(s[1..]));
    }
  }

  /** Every character of an encoded message is unreserved, `%`, or a hexadecimal digit. */
  lemma {:induction false} EncodeIsUriSafe(s: string)
    ensures forall i :: 0 <= i < |Encode(s)| ==>
      IsUnreserved(Encode(s)[i]) || Encode(s)[i] == '%' || IsHexDigit(Encode(s)[i])
    decreases |s|
  {
    if s != [] {
      EscapesAreUriSafe(Utf8(s[0]));
      EncodeIsUriSafe(s[1..]);
    }
  }

  lemma {:induction false} EscapesAreUriSafe(bs: seq<byte>)
    ensures forall i :: 0 <= i < |PercentEscapes(bs)| ==>
      PercentEscapes(bs)[i] == '%' || IsHexDigit(PercentEscapes(bs)[i])
    decreases |bs|
  {
    if bs != [] {
      HexRoundTrip(bs[0] as int / 16);
      HexRoundTrip(bs[0] as int % 16);
      EscapesAreUriSafe(bs[1..]);
    }
  }

  /** A message made only of unreserved characters is left unchanged. */
  lemma {:induction false} EncodeUnreservedIdentity(s: string)
    requires forall i :: 0 <= i < |s| ==> IsUnreserved(s[i])
    ensures Encode(s) == s
    decreases |s|
  {
    if s != [] {
      EncodeUnreservedIdentity(s[1..]);
      assert s == [s[0]] + s[1..];
    }
  }
}
