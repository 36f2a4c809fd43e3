/**
  `encodeURIComponent` of ECMA-262 (section 19.2.6.5): every character outside
  the unreserved set `A-Z a-z 0-9 - _ . ! ~ * ' ( )` is replaced by the
  percent-encoded bytes of its UTF-8 form (section 2.1 of RFC 3986), with
  upper-case hexadecimal digits. A decoder is given beside it as the partner
  of the round trip.
*/
module Uri {
  import opened Wrappers

  type Byte = b: int | 0 <= b < 256

  /** The characters `encodeURIComponent` leaves as they are. */
  predicate IsUnreserved(c: char) {
    || ('A' <= c <= 'Z') || ('a' <= c <= 'z') || ('0' <= c <= '9')
    || c == '-' || c == '_' || c == '.' || c == '!' || c == '~'
    || c == '*' || c == '\'' || c == '(' || c == ')'
  }

  /** A character that may appear in the output of `encodeURIComponent`. */
  predicate IsEncodedChar(c: char) {
    IsUnreserved(c) || c == '%'
  }

  /** The upper-case hexadecimal digit of a value below 16. */
  function HexDigit(d: int): (c: char)
    requires 0 <= d < 16
    ensures IsUnreserved(c)
  {
    if d < 10 then ('0' as int + d) as char else ('A' as int + d - 10) as char
  }

  /** The UTF-8 bytes of one Unicode scalar value. */
  function Utf8(c: char): (bytes: seq<Byte>)
    ensures 1 <= |bytes| <= 4
    ensures (|bytes| == 1) == (c as int < 0x80)
  {
    var cp := c as int;
    var q1 := cp / 64;
    var q2 := q1 / 64;
    var q3 := q2 / 64;
    if cp < 0x80 then [cp]
    else if cp < 0x800 then [0xC0 + q1, 0x80 + cp % 64]
    else if cp < 0x10000 then [0xE0 + q2, 0x80 + q1 % 64, 0x80 + cp % 64]
    else [0xF0 + q3, 0x80 + q2 % 64, 0x80 + q1 % 64, 0x80 + cp % 64]
  }

  /** `%XX` for each byte. */
  function PercentEncode(bytes: seq<Byte>): (r: string)
    ensures |r| == 3 * |bytes|
  {
    if bytes == [] then ""
    else ['%', HexDigit(bytes[0] / 16), HexDigit(bytes[0] % 16)] + PercentEncode(bytes[1..])
  }

  /** How `encodeURIComponent` renders one character. */
  function EncodeChar(c: char): (r: string)
    ensures 0 < |r|
  {
    if IsUnreserved(c) then [c] else PercentEncode(Utf8(c))
  }

  /** `encodeURIComponent(s)`: never shorter than its input. */
  function EncodeURIComponent(s: string): (r: string)
    ensures |s| <= |r|
  {
    if s == [] then "" else EncodeChar(s[0]) + EncodeURIComponent(s[1..])
  }

  lemma {:induction false} PercentEncodeAlphabet(bytes: seq<Byte>)
    ensures forall k :: 0 <= k < |PercentEncode(bytes)| ==> IsEncodedChar(PercentEncode(bytes)[k])
  {
    if bytes != [] {
      PercentEncodeAlphabet(bytes[1..]);
    }
  }

  /**
    The output of `encodeURIComponent` holds only unreserved characters and
    `%`, so no space, `&`, `#`, `=` or `"` of the input survives unencoded.
  */
  lemma {:induction false} EncodedAlphabet(s: string)
    ensures forall k :: 0 <= k < |EncodeURIComponent(s)| ==> IsEncodedChar(EncodeURIComponent(s)[k])
  {
    if s != [] {
      EncodedAlphabet(s[1..]);
      if !IsUnreserved(s[0]) {
        PercentEncodeAlphabet(Utf8(s[0]));
      }
    }
  }

  /** In particular the encoding holds no `=`, `&` or `"`: encoded text cannot end an attribute or add a parameter. */
  lemma EncodedNoDelimiters(s: string)
    ensures var e := EncodeURIComponent(s);
      forall k :: 0 <= k < |e| ==> e[k] != '=' && e[k] != '&' && e[k] != '"'
  {
    EncodedAlphabet(s);
  }

  // ---------------------------------------------------------------- decoding

  function HexValue(c: char): Option<int> {
    if '0' <= c <= '9' then Some(c as int - '0' as int)
    else if 'A' <= c <= 'F' then Some(c as int - 'A' as int + 10)
    else if 'a' <= c <= 'f' then Some(c as int - 'a' as int + 10)
    else None
  }

  /** Reads `n` consecutive `%XX` triples from the front of `r`. */
  function ReadBytes(r: string, n: nat): Option<seq<Byte>> {
    if n == 0 then Some([])
    else if |r| < 3 || r[0] != '%' then None
    else match (HexValue(r[1]), HexValue(r[2]))
      case (Some(hi), Some(lo)) =>
        if 0 <= hi < 16 && 0 <= lo < 16 then
          match ReadBytes(r[3..], n - 1)
          case Some(rest) => Some([hi * 16 + lo] + rest)
          case None => None
        else None
      case _ => None
  }

  /** The number of bytes a UTF-8 sequence with this lead byte has; 0 when invalid. */
  function Utf8Length(lead: Byte): nat {
    if lead < 0x80 then 1
    else if 0xC0 <= lead < 0xE0 then 2
    else if 0xE0 <= lead < 0xF0 then 3
    else if 0xF0 <= lead < 0xF8 then 4
    else 0
  }

  predicate IsContinuation(b: Byte) {
    0x80 <= b < 0xC0
  }

  /**
    The scalar value `cp` decoded from a sequence of `n` bytes, rejected when
    it is a surrogate, beyond U+10FFFF, or overlong (a shorter sequence would
    have encoded it), as section 19.2.6.6 of ECMA-262 requires.
  */
  function ToChar(cp: int, n: nat): Option<char> {
    var least := if n <= 1 then 0 else if n == 2 then 0x80 else if n == 3 then 0x800 else 0x1_0000;
    if least <= cp && (cp < 0xD800 || 0xE000 <= cp < 0x11_0000) then Some(cp as char) else None
  }

  /** The scalar value a UTF-8 byte sequence stands for; `None` for an invalid sequence. */
  function Utf8Decode(bs: seq<Byte>): Option<char> {
    if |bs| == 1 && bs[0] < 0x80 then Some(bs[0] as char)
    else if |bs| == 2 && IsContinuation(bs[1]) then
      ToChar((bs[0] as int - 0xC0) * 64 + (bs[1] as int - 0x80), 2)
    else if |bs| == 3 && IsContinuation(bs[1]) && IsContinuation(bs[2]) then
      ToChar(((bs[0] as int - 0xE0) * 64 + (bs[1] as int - 0x80)) * 64 + (bs[2] as int - 0x80), 3)
    else if |bs| == 4 && IsContinuation(bs[1]) && IsContinuation(bs[2]) && IsContinuation(bs[3]) then
      ToChar((((bs[0] as int - 0xF0) * 64 + (bs[1] as int - 0x80)) * 64 + (bs[2] as int - 0x80)) * 64
        + (bs[3] as int - 0x80), 4)
    else None
  }

  /** Decodes the first character of `r`, with the number of characters it took. */
  function DecodeChar(r: string): Option<(char, nat)>
    requires r != []
  {
    if r[0] != '%' then Some((r[0], 1))
    else match ReadBytes(r, 1)
      case None => None
      case Some(lead) =>
        var n := Utf8Length(lead[0]);
        if n == 0 then None
        else match ReadBytes(r, n)
          case None => None
          case Some(bs) =>
            match Utf8Decode(bs)
            case None => None
            case Some(c) => Some((c, 3 * n))
  }

  /**
    `decodeURIComponent` (section 19.2.6.2 of ECMA-262): `None` where the
    original throws a `URIError` (a malformed escape, an invalid lead byte,
    a missing continuation byte, an overlong or out-of-range sequence).
  */
  function DecodeURIComponent(r: string): Option<string>
    decreases |r|
  {
    if r == [] then Some([])
    else match DecodeChar(r)
      case None => None
      case Some((c, n)) =>
        if 0 < n <= |r| then
          match DecodeURIComponent(r[n..])
          case None => None
          case Some(rest) => Some([c] + rest)
        else None
  }

  // ------------------------------------------------------------- round trip

  /** A digit written by the encoder reads back as its value. */
  lemma HexDigitValue(d: int)
    requires 0 <= d < 16
    ensures HexValue(HexDigit(d)) == Some(d)
  {
  }

  /** Reading `n` triples back from the encoding of `bytes` gives its first `n` bytes. */
  lemma {:induction false} ReadPercentEncoded(bytes: seq<Byte>, rest: string, n: nat)
    requires n <= |bytes|
    ensures ReadBytes(PercentEncode(bytes) + rest, n) == Some(bytes[..n])
  {
    if n > 0 {
      var r := PercentEncode(bytes) + rest;
      var b := bytes[0];
      assert r[0] == '%' && r[1] == HexDigit(b / 16) && r[2] == HexDigit(b % 16);
      HexDigitValue(b / 16);
      HexDigitValue(b % 16);
      assert r[3..] == PercentEncode(bytes[1..]) + rest;
      ReadPercentEncoded(bytes[1..], rest, n - 1);
      assert (b / 16) * 16 + b % 16 == b;
      assert [b] + bytes[1..][..n - 1] == bytes[..n];
    }
  }

  lemma Utf8RoundTrip(c: char)
    ensures Utf8Length(Utf8(c)[0]) == |Utf8(c)|
    ensures Utf8Decode(Utf8(c)) == Some(c)
  {
    var cp := c as int;
    var q1 := cp / 64;
    var q2 := q1 / 64;
    var q3 := q2 / 64;
    assert cp == q1 * 64 + cp % 64;
    assert q1 == q2 * 64 + q1 % 64;
    assert q2 == q3 * 64 + q2 % 64;
  }

  lemma EncodeCharDecodes(c: char, rest: string)
    ensures DecodeChar(EncodeChar(c) + rest) == Some((c, |EncodeChar(c)|))
  {
    var r := EncodeChar(c) + rest;
    if !IsUnreserved(c) {
      var bs := Utf8(c);
      assert r == PercentEncode(bs) + rest;
      assert r[0] == '%';
      ReadPercentEncoded(bs, rest, 1);
      Utf8RoundTrip(c);
      ReadPercentEncoded(bs, rest, |bs|);
      assert bs[..|bs|] == bs;
    }
  }

  /** A decoded first character followed by the decoded remainder. */
  lemma DecodeStep(r: string, c: char, n: nat, tail: string)
    requires r != [] && DecodeChar(r) == Some((c, n)) && 0 < n <= |r|
    requires DecodeURIComponent(r[n..]) == Some(tail)
    ensures DecodeURIComponent(r) == Some([c] + tail)
  {
  }

  /** `decodeURIComponent(encodeURIComponent(s)) == s`: the encoding loses nothing. */
  lemma {:induction false} EncodeDecodeRoundTrip(s: string)
    ensures DecodeURIComponent(EncodeURIComponent(s)) == Some(s)
  {
    if s != [] {
      var e := EncodeChar(s[0]);
      var rest := EncodeURIComponent(s[1..]);
      assert EncodeURIComponent(s) == e + rest;
      EncodeCharDecodes(s[0], rest);
      assert (e + rest)[|e|..] == rest;
      EncodeDecodeRoundTrip(s[1..]);
      DecodeStep(e + rest, s[0], |e|, s[1..]);
      assert s == [s[0]] + s[1..];
    }
  }

  /** Different texts have different encodings. */
  lemma EncodeInjective(s: string, t: string)
    requires EncodeURIComponent(s) == EncodeURIComponent(t)
    ensures s == t
  {
    EncodeDecodeRoundTrip(s);
    EncodeDecodeRoundTrip(t);
  }

  /** An overlong two-byte form of U+0000 is rejected, as ECMA-262 rejects it. */
  lemma OverlongRejected()
    ensures Utf8Decode([0xC0, 0x80]) == None
    ensures DecodeURIComponent("%C0%80") == None
  {
    var bs: seq<Byte> := [0xC0, 0x80];
    assert PercentEncode(bs[1..]) == "%80" + PercentEncode([]);
    assert PercentEncode(bs) == "%C0%80";
    ReadPercentEncoded(bs, "", 1);
    ReadPercentEncoded(bs, "", 2);
    assert bs[..2] == bs && bs[..1] == [0xC0];
    assert "%C0%80" + "" == "%C0%80";
  }
}
