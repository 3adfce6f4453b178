/**
 * `encodeURIComponent`: every character outside the unreserved set of RFC 3986
 * section 2.3 (plus the marks ! ' ( ) * that JavaScript also keeps) is written as
 * the percent-encoded (RFC 3986 section 2.1) UTF-8 bytes (RFC 3629) of its code point,
 * with upper-case hexadecimal digits. A decoder is given so that the encoding can be
 * shown to lose nothing.
 */
module Uri {
  import opened Wrappers

  /** The characters `encodeURIComponent` leaves as they are. */
  predicate Unreserved(c: char) {
    ('A' <= c <= 'Z') || ('a' <= c <= 'z') || ('0' <= c <= '9')
    || c == '-' || c == '_' || c == '.' || c == '!' || c == '~'
    || c == '*' || c == '\'' || c == '(' || c == ')'
  }

  predicate IsByte(b: int) {
    0 <= b < 256
  }

  function HexUpper(d: int): char
    requires 0 <= d < 16
  {
    if d < 10 then ('0' as int + d) as char else ('A' as int + d - 10) as char
  }

  predicate IsHexUpper(c: char) {
    ('0' <= c <= '9') || ('A' <= c <= 'F')
  }

  /** The value of a hexadecimal digit of either case. */
  function HexValue(c: char): Option<int> {
    if '0' <= c <= '9' then Some(c as int - '0' as int)
    else if 'A' <= c <= 'F' then Some(c as int - 'A' as int + 10)
    else if 'a' <= c <= 'f' then Some(c as int - 'a' as int + 10)
    else None
  }

  lemma HexRoundTrip(d: int)
    requires 0 <= d < 16
    ensures HexValue(HexUpper(d)) == Some(d) && IsHexUpper(HexUpper(d))
  {
  }

  /** The UTF-8 encoding of one code point (RFC 3629 section 3). */
  function Utf8(c: char): (bs: seq<int>)
    ensures 1 <= |bs| <= 4
    ensures forall i :: 0 <= i < |bs| ==> IsByte(bs[i])
  {
    var cp := c as int;
    if cp < 0x80 then [cp]
    else if cp < 0x800 then [0xC0 + cp / 64, 0x80 + cp % 64]
    else if cp < 0x10000 then [0xE0 + cp / 4096, 0x80 + cp / 64 % 64, 0x80 + cp % 64]
    else [0xF0 + cp / 262144, 0x80 + cp / 4096 % 64, 0x80 + cp / 64 % 64, 0x80 + cp % 64]
  }

  /** The UTF-8 encoding of a string, as `Buffer.from(s)` produces it. */
  function Utf8Bytes(s: string): (bs: seq<int>)
    ensures forall i :: 0 <= i < |bs| ==> IsByte(bs[i])
  {
    if |s| == 0 then [] else Utf8(s[0]) + Utf8Bytes(s[1..])
  }

  function PercentByte(b: int): (r: string)
    requires IsByte(b)
    ensures |r| == 3
  {
    ['%', HexUpper(b / 16), HexUpper(b % 16)]
  }

  function PercentBytes(bs: seq<int>): string
    requires forall i :: 0 <= i < |bs| ==> IsByte(bs[i])
  {
    if |bs| == 0 then "" else PercentByte(bs[0]) + PercentBytes(bs[1..])
  }

  function EncodeChar(c: char): string {
    if Unreserved(c) then [c] else PercentBytes(Utf8(c))
  }

  /** `encodeURIComponent(s)` */
  function Encode(s: string): string {
    if |s| == 0 then "" else EncodeChar(s[0]) + Encode(s[1..])
  }

  /** The characters an encoded string is made of. */
  predicate EncodedAlphabet(c: char) {
    Unreserved(c) || c == '%' || IsHexUpper(c)
  }

  lemma {:induction false} PercentBytesAlphabet(bs: seq<int>)
    requires forall i :: 0 <= i < |bs| ==> IsByte(bs[i])
    ensures forall i :: 0 <= i < |PercentBytes(bs)| ==> EncodedAlphabet(PercentBytes(bs)[i])
  {
    if |bs| > 0 {
      HexRoundTrip(bs[0] / 16);
      HexRoundTrip(bs[0] % 16);
      PercentBytesAlphabet(bs[1..]);
    }
  }

  /** Every character of an encoding is unreserved, '%' or an upper-case hex digit. */
  lemma {:induction false} EncodeAlphabet(s: string)
    ensures forall i :: 0 <= i < |Encode(s)| ==> EncodedAlphabet(Encode(s)[i])
  {
    if |s| > 0 {
      if !Unreserved(s[0]) {
        PercentBytesAlphabet(Utf8(s[0]));
      }
      EncodeAlphabet(s[1..]);
      var e := Encode(s);
      var h := EncodeChar(s[0]);
      forall i | 0 <= i < |e|
        ensures EncodedAlphabet(e[i])
      {
        if i >= |h| {
          assert e[i] == Encode(s[1..])[i - |h|];
        }
      }
    }
  }

  /** A character outside that alphabet never occurs in an encoding. */
  lemma EncodeExcludes(s: string, c: char)
    requires !EncodedAlphabet(c)
    ensures c !in Encode(s)
  {
    EncodeAlphabet(s);
    var e := Encode(s);
    assert forall i :: 0 <= i < |e| ==> e[i] != c;
  }

  /** Hence an encoded value brings no separator of its own into a path or a query. */
  lemma EncodeHasNoDelimiters(s: string)
    ensures '/' !in Encode(s) && ' ' !in Encode(s) && '{' !in Encode(s) && '}' !in Encode(s)
    ensures '&' !in Encode(s) && '=' !in Encode(s) && '?' !in Encode(s) && '#' !in Encode(s)
  {
    EncodeExcludes(s, '/');
    EncodeExcludes(s, ' ');
    EncodeExcludes(s, '{');
    EncodeExcludes(s, '}');
    EncodeExcludes(s, '&');
    EncodeExcludes(s, '=');
    EncodeExcludes(s, '?');
    EncodeExcludes(s, '#');
  }

  lemma {:induction false} EncodeAppend(a: string, b: string)
    ensures Encode(a + b) == Encode(a) + Encode(b)
  {
    if |a| > 0 {
      assert (a + b)[0] == a[0] && (a + b)[1..] == a[1..] + b;
      EncodeAppend(a[1..], b);
      calc {
        Encode(a + b);
        EncodeChar(a[0]) + Encode(a[1..] + b);
        EncodeChar(a[0]) + (Encode(a[1..]) + Encode(b));
        (EncodeChar(a[0]) + Encode(a[1..])) + Encode(b);
      }
    } else {
      assert a + b == b;
    }
  }

  /** Between unreserved text, a space is escaped as %20 and a slash as %2F. */
  lemma EncodeSpaceAndSlash(a: string, b: string)
    requires forall i :: 0 <= i < |a| ==> Unreserved(a[i])
    requires forall i :: 0 <= i < |b| ==> Unreserved(b[i])
    ensures Encode(a + (" " + b)) == a + ("%20" + b)
    ensures Encode(a + ("/" + b)) == a + ("%2F" + b)
  {
    EncodeBetween(a, ' ', b);
    EncodeBetween(a, '/', b);
    SpaceAndSlashEscapes();
  }

  lemma SpaceAndSlashEscapes()
    ensures EncodeChar(' ') == "%20" && EncodeChar('/') == "%2F"
  {
  }

  /** Between unreserved text, only the character in the middle changes. */
  lemma EncodeBetween(a: string, c: char, b: string)
    requires forall i :: 0 <= i < |a| ==> Unreserved(a[i])
    requires forall i :: 0 <= i < |b| ==> Unreserved(b[i])
    ensures Encode(a + ([c] + b)) == a + (EncodeChar(c) + b)
  {
    EncodeUnreserved(a);
    EncodeUnreserved(b);
    EncodeAppend(a, [c] + b);
    assert ([c] + b)[0] == c && ([c] + b)[1..] == b;
  }

  /** Unreserved text is left as it is. */
  lemma {:induction false} EncodeUnreserved(s: string)
    requires forall i :: 0 <= i < |s| ==> Unreserved(s[i])
    ensures Encode(s) == s
  {
    if |s| > 0 {
      EncodeUnreserved(s[1..]);
      assert [s[0]] + s[1..] == s;
    }
  }

  // ----- decoding -----

  /** The byte written as `%XY` at offset i of t. */
  function ByteAt(t: string, i: int): Option<int> {
    if 0 <= i && i + 3 <= |t| && t[i] == '%' && HexValue(t[i + 1]).Some? && HexValue(t[i + 2]).Some?
    then Some(16 * HexValue(t[i + 1]).value + HexValue(t[i + 2]).value)
    else None
  }

  /** The six payload bits of a UTF-8 continuation byte written at offset i of t. */
  function ContAt(t: string, i: int): Option<int> {
    match ByteAt(t, i)
    case Some(b) => if 0x80 <= b < 0xC0 then Some(b - 0x80) else None
    case None => None
  }

  predicate IsScalar(cp: int) {
    (0 <= cp < 0xD800) || (0xE000 <= cp < 0x110000)
  }

  function CharOf(cp: int): Option<char> {
    if IsScalar(cp) then Some(cp as char) else None
  }

  /** The first character of a percent-encoded text and how many text characters it spans. */
  function DecodeGroup(t: string): (r: Option<(char, nat)>)
    requires |t| > 0
    ensures r.Some? ==> 1 <= r.value.1 <= |t|
  {
    if t[0] != '%' then Some((t[0], 1))
    else match ByteAt(t, 0)
      case None => None
      case Some(b0) =>
        if b0 < 0x80 then Some((b0 as char, 3))
        else if b0 < 0xC2 then None
        else if b0 < 0xE0 then
          match ContAt(t, 3)
          case None => None
          case Some(c1) => Some((((b0 - 0xC0) * 64 + c1) as char, 6))
        else if b0 < 0xF0 then
          match (ContAt(t, 3), ContAt(t, 6))
          case (Some(c1), Some(c2)) =>
            (match CharOf((b0 - 0xE0) * 4096 + c1 * 64 + c2)
             case Some(ch) => Some((ch, 9))
             case None => None)
          case _ => None
        else if b0 < 0xF5 then
          match (ContAt(t, 3), ContAt(t, 6), ContAt(t, 9))
          case (Some(c1), Some(c2), Some(c3)) =>
            (match CharOf((b0 - 0xF0) * 262144 + c1 * 4096 + c2 * 64 + c3)
             case Some(ch) => Some((ch, 12))
             case None => None)
          case _ => None
        else None
  }

  /** `decodeURIComponent(t)`, None where it would throw a URIError. */
  function Decode(t: string): Option<string>
    decreases |t|
  {
    if |t| == 0 then Some("")
    else match DecodeGroup(t)
      case None => None
      case Some(g) =>
        match Decode(t[g.1..])
        case None => None
        case Some(rest) => Some([g.0] + rest)
  }

  lemma ByteAtPercent(t: string, i: nat, b: int)
    requires IsByte(b) && i + 3 <= |t| && t[i..i + 3] == PercentByte(b)
    ensures ByteAt(t, i) == Some(b)
  {
    HexRoundTrip(b / 16);
    HexRoundTrip(b % 16);
    assert t[i] == t[i..i + 3][0] && t[i + 1] == t[i..i + 3][1] && t[i + 2] == t[i..i + 3][2];
  }

  lemma Split64(cp: int)
    requires cp >= 0
    ensures cp == cp / 64 * 64 + cp % 64
    ensures cp / 64 == cp / 4096 * 64 + cp / 64 % 64
    ensures cp / 4096 == cp / 262144 * 64 + cp / 4096 % 64
  {
  }

  lemma PercentBytesCons(b: int, bs: seq<int>)
    requires IsByte(b) && forall i :: 0 <= i < |bs| ==> IsByte(bs[i])
    ensures PercentBytes([b] + bs) == PercentByte(b) + PercentBytes(bs)
  {
    assert ([b] + bs)[0] == b && ([b] + bs)[1..] == bs;
  }

  lemma PercentBytesThree(b0: int, b1: int, b2: int)
    requires IsByte(b0) && IsByte(b1) && IsByte(b2)
    ensures PercentBytes([b0, b1, b2]) == PercentByte(b0) + PercentByte(b1) + PercentByte(b2)
  {
    PercentBytesCons(b2, []);
    PercentBytesCons(b1, [b2]);
    PercentBytesCons(b0, [b1, b2]);
    assert [b0] + ([b1] + ([b2] + [])) == [b0, b1, b2];
  }

  lemma PercentBytesFour(b0: int, b1: int, b2: int, b3: int)
    requires IsByte(b0) && IsByte(b1) && IsByte(b2) && IsByte(b3)
    ensures PercentBytes([b0, b1, b2, b3]) == PercentByte(b0) + PercentByte(b1) + PercentByte(b2) + PercentByte(b3)
  {
    PercentBytesThree(b1, b2, b3);
    PercentBytesCons(b0, [b1, b2, b3]);
  }

  lemma OneByte(c: char, rest: string)
    requires c as int < 0x80 && !Unreserved(c)
    ensures |EncodeChar(c)| == 3
    ensures |EncodeChar(c) + rest| > 0
    ensures DecodeGroup(EncodeChar(c) + rest) == Some((c, 3))
  {
    var b0 := c as int;
    assert Utf8(c) == [b0] + [];
    PercentBytesCons(b0, []);
    assert EncodeChar(c) == PercentByte(b0);
    var t := EncodeChar(c) + rest;
    assert t[0..3] == PercentByte(b0);
    ByteAtPercent(t, 0, b0);
  }

  lemma TwoBytes(c: char, rest: string)
    requires 0x80 <= c as int < 0x800
    ensures |EncodeChar(c)| == 6
    ensures |EncodeChar(c) + rest| > 0
    ensures DecodeGroup(EncodeChar(c) + rest) == Some((c, 6))
  {
    var cp := c as int;
    var b0, b1 := 0xC0 + cp / 64, 0x80 + cp % 64;
    assert Utf8(c) == [b0] + ([b1] + []);
    PercentBytesCons(b1, []);
    PercentBytesCons(b0, [b1]);
    assert EncodeChar(c) == PercentByte(b0) + PercentByte(b1);
    var t := EncodeChar(c) + rest;
    assert t[0..3] == PercentByte(b0);
    assert t[3..6] == PercentByte(b1);
    ByteAtPercent(t, 0, b0);
    ByteAtPercent(t, 3, b1);
    Split64(cp);
  }

  /** Reading back three percent groups written in a row. */
  lemma PercentThreeAt(b0: int, b1: int, b2: int, rest: string)
    requires IsByte(b0) && IsByte(b1) && IsByte(b2)
    ensures var t := PercentByte(b0) + PercentByte(b1) + PercentByte(b2) + rest;
      t[0] == '%' && ByteAt(t, 0) == Some(b0) && ByteAt(t, 3) == Some(b1) && ByteAt(t, 6) == Some(b2)
  {
    var t := PercentByte(b0) + PercentByte(b1) + PercentByte(b2) + rest;
    assert t[0..3] == PercentByte(b0);
    assert t[3..6] == PercentByte(b1);
    assert t[6..9] == PercentByte(b2);
    ByteAtPercent(t, 0, b0);
    ByteAtPercent(t, 3, b1);
    ByteAtPercent(t, 6, b2);
  }

  /** The three UTF-8 bytes of a character from U+0800 to U+FFFF: a lead byte and two continuations. */
  lemma Utf8Three(c: char)
    requires 0x800 <= c as int < 0x10000
    ensures var bs := Utf8(c);
      |bs| == 3 && 0xE0 <= bs[0] < 0xF0 && 0x80 <= bs[1] < 0xC0 && 0x80 <= bs[2] < 0xC0
      && (bs[0] - 0xE0) * 4096 + (bs[1] - 0x80) * 64 + (bs[2] - 0x80) == c as int
  {
    Split64(c as int);
  }

  lemma EncodeCharThree(c: char)
    requires 0x800 <= c as int < 0x10000
    ensures |Utf8(c)| == 3
    ensures EncodeChar(c) == PercentByte(Utf8(c)[0]) + PercentByte(Utf8(c)[1]) + PercentByte(Utf8(c)[2])
  {
    var bs := Utf8(c);
    PercentBytesThree(bs[0], bs[1], bs[2]);
    assert bs == [bs[0], bs[1], bs[2]];
  }

  lemma DecodeThreeGroup(t: string, b0: int, b1: int, b2: int)
    requires 0xE0 <= b0 < 0xF0 && 0x80 <= b1 < 0xC0 && 0x80 <= b2 < 0xC0
    requires |t| > 0 && t[0] == '%'
    requires ByteAt(t, 0) == Some(b0) && ByteAt(t, 3) == Some(b1) && ByteAt(t, 6) == Some(b2)
    requires IsScalar((b0 - 0xE0) * 4096 + (b1 - 0x80) * 64 + (b2 - 0x80))
    ensures DecodeGroup(t) == Some((((b0 - 0xE0) * 4096 + (b1 - 0x80) * 64 + (b2 - 0x80)) as char, 9))
  {
  }

  lemma ThreeBytes(c: char, rest: string)
    requires 0x800 <= c as int < 0x10000
    ensures |EncodeChar(c)| == 9
    ensures |EncodeChar(c) + rest| > 0
    ensures DecodeGroup(EncodeChar(c) + rest) == Some((c, 9))
  {
    var bs := Utf8(c);
    Utf8Three(c);
    EncodeCharThree(c);
    PercentThreeAt(bs[0], bs[1], bs[2], rest);
    DecodeThreeGroup(EncodeChar(c) + rest, bs[0], bs[1], bs[2]);
  }

  /** The four UTF-8 bytes of a character from U+10000 on: a lead byte and three continuations. */
  lemma Utf8Four(c: char)
    requires 0x10000 <= c as int
    ensures var bs := Utf8(c);
      |bs| == 4 && 0xF0 <= bs[0] < 0xF5 && 0x80 <= bs[1] < 0xC0 && 0x80 <= bs[2] < 0xC0 && 0x80 <= bs[3] < 0xC0
      && (bs[0] - 0xF0) * 262144 + (bs[1] - 0x80) * 4096 + (bs[2] - 0x80) * 64 + (bs[3] - 0x80) == c as int
  {
    Split64(c as int);
  }

  lemma EncodeCharFour(c: char)
    requires 0x10000 <= c as int
    ensures |Utf8(c)| == 4
    ensures EncodeChar(c) == PercentByte(Utf8(c)[0]) + PercentByte(Utf8(c)[1]) + PercentByte(Utf8(c)[2]) + PercentByte(Utf8(c)[3])
  {
    var bs := Utf8(c);
    PercentBytesFour(bs[0], bs[1], bs[2], bs[3]);
    assert bs == [bs[0], bs[1], bs[2], bs[3]];
  }

  /** Reading back four percent groups written in a row. */
  lemma PercentFourAt(b0: int, b1: int, b2: int, b3: int, rest: string)
    requires IsByte(b0) && IsByte(b1) && IsByte(b2) && IsByte(b3)
    ensures var t := PercentByte(b0) + PercentByte(b1) + PercentByte(b2) + PercentByte(b3) + rest;
      t[0] == '%' && ByteAt(t, 0) == Some(b0) && ByteAt(t, 3) == Some(b1) && ByteAt(t, 6) == Some(b2) && ByteAt(t, 9) == Some(b3)
  {
    var t := PercentByte(b0) + PercentByte(b1) + PercentByte(b2) + PercentByte(b3) + rest;
    assert t[0..3] == PercentByte(b0);
    assert t[3..6] == PercentByte(b1);
    assert t[6..9] == PercentByte(b2);
    assert t[9..12] == PercentByte(b3);
    ByteAtPercent(t, 0, b0);
    ByteAtPercent(t, 3, b1);
    ByteAtPercent(t, 6, b2);
    ByteAtPercent(t, 9, b3);
  }

  lemma DecodeFourGroup(t: string, b0: int, b1: int, b2: int, b3: int)
    requires 0xF0 <= b0 < 0xF5 && 0x80 <= b1 < 0xC0 && 0x80 <= b2 < 0xC0 && 0x80 <= b3 < 0xC0
    requires |t| > 0 && t[0] == '%'
    requires ByteAt(t, 0) == Some(b0) && ByteAt(t, 3) == Some(b1) && ByteAt(t, 6) == Some(b2) && ByteAt(t, 9) == Some(b3)
    requires IsScalar((b0 - 0xF0) * 262144 + (b1 - 0x80) * 4096 + (b2 - 0x80) * 64 + (b3 - 0x80))
    ensures DecodeGroup(t) == Some((((b0 - 0xF0) * 262144 + (b1 - 0x80) * 4096 + (b2 - 0x80) * 64 + (b3 - 0x80)) as char, 12))
  {
  }

  lemma FourBytes(c: char, rest: string)
    requires 0x10000 <= c as int
    ensures |EncodeChar(c)| == 12
    ensures |EncodeChar(c) + rest| > 0
    ensures DecodeGroup(EncodeChar(c) + rest) == Some((c, 12))
  {
    var bs := Utf8(c);
    Utf8Four(c);
    EncodeCharFour(c);
    PercentFourAt(bs[0], bs[1], bs[2], bs[3], rest);
    DecodeFourGroup(EncodeChar(c) + rest, bs[0], bs[1], bs[2], bs[3]);
  }

  /** Decoding the encoding of c, whatever follows it, gives back c and the encoding's length. */
  lemma DecodeGroupEncodeChar(c: char, rest: string)
    ensures |EncodeChar(c) + rest| > 0
    ensures DecodeGroup(EncodeChar(c) + rest) == Some((c, |EncodeChar(c)|))
  {
    var cp := c as int;
    if Unreserved(c) {
      assert (EncodeChar(c) + rest)[0] == c;
    } else if cp < 0x80 {
      OneByte(c, rest);
    } else if cp < 0x800 {
      TwoBytes(c, rest);
    } else if cp < 0x10000 {
      ThreeBytes(c, rest);
    } else {
      FourBytes(c, rest);
    }
  }

  /** encodeURIComponent loses nothing: decoding its output gives back the input. */
  lemma {:induction false} DecodeEncode(s: string)
    ensures Decode(Encode(s)) == Some(s)
  {
    if |s| > 0 {
      var h := EncodeChar(s[0]);
      var t := Encode(s);
      DecodeGroupEncodeChar(s[0], Encode(s[1..]));
      assert t[|h|..] == Encode(s[1..]);
      DecodeEncode(s[1..]);
      assert [s[0]] + s[1..] == s;
    }
  }
}
