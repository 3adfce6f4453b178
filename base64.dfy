/**
 * The base64 encoding of section 4 of RFC 4648 (alphabet A-Z a-z 0-9 + /, `=` padding),
 * which `Buffer.toString("base64")` produces for the Basic credentials, and a decoder
 * used to state that the encoding loses nothing.
 */
module Base64 {
  import opened Wrappers
  import opened Uri

  /** The symbol for a 6-bit value. */
  function Symbol(d: int): (c: char)
    requires 0 <= d < 64
    ensures c != '='
  {
    if d < 26 then ('A' as int + d) as char
    else if d < 52 then ('a' as int + d - 26) as char
    else if d < 62 then ('0' as int + d - 52) as char
    else if d == 62 then '+'
    else '/'
  }

  /** The 6-bit value of a symbol; None for a character outside the alphabet. */
  function SymbolValue(c: char): Option<int> {
    if 'A' <= c <= 'Z' then Some(c as int - 'A' as int)
    else if 'a' <= c <= 'z' then Some(c as int - 'a' as int + 26)
    else if '0' <= c <= '9' then Some(c as int - '0' as int + 52)
    else if c == '+' then Some(62)
    else if c == '/' then Some(63)
    else None
  }

  lemma SymbolValueOfSymbol(d: int)
    requires 0 <= d < 64
    ensures SymbolValue(Symbol(d)) == Some(d)
  {
  }

  predicate Bytes(b: seq<int>) {
    forall i :: 0 <= i < |b| ==> IsByte(b[i])
  }

  /** Three bytes become four symbols; a final one or two bytes are padded with `=`. */
  function Encode(b: seq<int>): (r: string)
    requires Bytes(b)
    ensures |r| == 4 * ((|b| + 2) / 3)
  {
    if |b| == 0 then ""
    else if |b| == 1 then
      [Symbol(b[0] / 4), Symbol((b[0] % 4) * 16), '=', '=']
    else if |b| == 2 then
      [Symbol(b[0] / 4), Symbol((b[0] % 4) * 16 + b[1] / 16), Symbol((b[1] % 16) * 4), '=']
    else
      Quad(b[0], b[1], b[2]) + Encode(b[3..])
  }

  /** Decodes groups of four symbols; `=` may only pad the last group. */
  function Decode(s: string): Option<seq<int>> {
    if |s| == 0 then Some([])
    else if |s| < 4 then None
    else
      var v0, v1, v2, v3 := SymbolValue(s[0]), SymbolValue(s[1]), SymbolValue(s[2]), SymbolValue(s[3]);
      if v0.None? || v1.None? then None
      else if |s| == 4 && s[2] == '=' && s[3] == '=' then
        Some([v0.value * 4 + v1.value / 16])
      else if v2.None? then None
      else if |s| == 4 && s[3] == '=' then
        Some([v0.value * 4 + v1.value / 16, (v1.value % 16) * 16 + v2.value / 4])
      else if v3.None? then None
      else
        match Decode(s[4..])
        case None => None
        case Some(rest) =>
          Some([v0.value * 4 + v1.value / 16, (v1.value % 16) * 16 + v2.value / 4, (v2.value % 4) * 64 + v3.value] + rest)
  }

  lemma FirstByte(x: int, y: int)
    requires IsByte(x) && IsByte(y)
    ensures (x / 4) * 4 + ((x % 4) * 16 + y / 16) / 16 == x
  {
  }

  lemma SecondByte(x: int, y: int, z: int)
    requires IsByte(x) && IsByte(y) && IsByte(z)
    ensures (((x % 4) * 16 + y / 16) % 16) * 16 + ((y % 16) * 4 + z / 64) / 4 == y
  {
  }

  lemma ThirdByte(y: int, z: int)
    requires IsByte(y) && IsByte(z)
    ensures (((y % 16) * 4 + z / 64) % 4) * 64 + z % 64 == z
  {
  }

  /** The four symbols for three bytes. */
  function Quad(x: int, y: int, z: int): (q: string)
    requires IsByte(x) && IsByte(y) && IsByte(z)
    ensures |q| == 4 && q[2] != '=' && q[3] != '='
  {
    [Symbol(x / 4), Symbol((x % 4) * 16 + y / 16), Symbol((y % 16) * 4 + z / 64), Symbol(z % 64)]
  }

  lemma DecodeQuad(x: int, y: int, z: int, rest: string, r: seq<int>)
    requires IsByte(x) && IsByte(y) && IsByte(z)
    requires Decode(rest) == Some(r)
    ensures Decode(Quad(x, y, z) + rest) == Some([x, y, z] + r)
  {
    var s := Quad(x, y, z) + rest;
    SymbolValueOfSymbol(x / 4);
    SymbolValueOfSymbol((x % 4) * 16 + y / 16);
    SymbolValueOfSymbol((y % 16) * 4 + z / 64);
    SymbolValueOfSymbol(z % 64);
    FirstByte(x, y);
    SecondByte(x, y, z);
    ThirdByte(y, z);
    assert s[4..] == rest;
    assert s[..4] == Quad(x, y, z);
  }

  /** A last group padded with "==" decodes to one byte. */
  lemma DecodePaddedTwice(s: string)
    requires |s| == 4 && s[2] == '=' && s[3] == '='
    requires SymbolValue(s[0]).Some? && SymbolValue(s[1]).Some?
    ensures Decode(s) == Some([SymbolValue(s[0]).value * 4 + SymbolValue(s[1]).value / 16])
  {
  }

  /** A last group padded with one "=" decodes to two bytes. */
  lemma DecodePaddedOnce(s: string)
    requires |s| == 4 && s[2] != '=' && s[3] == '='
    requires SymbolValue(s[0]).Some? && SymbolValue(s[1]).Some? && SymbolValue(s[2]).Some?
    ensures Decode(s) == Some([SymbolValue(s[0]).value * 4 + SymbolValue(s[1]).value / 16,
                               (SymbolValue(s[1]).value % 16) * 16 + SymbolValue(s[2]).value / 4])
  {
  }

  lemma DecodeOneByte(x: int)
    requires IsByte(x)
    ensures Decode(Encode([x])) == Some([x])
  {
    var s := Encode([x]);
    assert s == [Symbol(x / 4), Symbol((x % 4) * 16), '=', '='];
    SymbolValueOfSymbol(x / 4);
    SymbolValueOfSymbol((x % 4) * 16);
    DecodePaddedTwice(s);
    FirstByte(x, 0);
  }

  lemma DecodeTwoBytes(x: int, y: int)
    requires IsByte(x) && IsByte(y)
    ensures Decode(Encode([x, y])) == Some([x, y])
  {
    var s := Encode([x, y]);
    assert s == [Symbol(x / 4), Symbol((x % 4) * 16 + y / 16), Symbol((y % 16) * 4), '='];
    SymbolValueOfSymbol(x / 4);
    SymbolValueOfSymbol((x % 4) * 16 + y / 16);
    SymbolValueOfSymbol((y % 16) * 4);
    DecodePaddedOnce(s);
    FirstByte(x, y);
    SecondByte(x, y, 0);
  }

  /** Three or more bytes encode as the group of the first three, then the rest. */
  lemma EncodeGroup(b: seq<int>)
    requires Bytes(b) && |b| >= 3
    ensures Encode(b) == Quad(b[0], b[1], b[2]) + Encode(b[3..])
  {
  }

  lemma SplitThree<T>(b: seq<T>)
    requires |b| >= 3
    ensures b == [b[0], b[1], b[2]] + b[3..]
  {
  }

  /** Three bytes in front of a string that round-trips still round-trip. */
  lemma DecodeEncodeGroup(b: seq<int>)
    requires Bytes(b) && |b| >= 3
    requires Decode(Encode(b[3..])) == Some(b[3..])
    ensures Decode(Encode(b)) == Some(b)
  {
    var x, y, z, rest := b[0], b[1], b[2], b[3..];
    assert IsByte(x) && IsByte(y) && IsByte(z) && Bytes(rest);
    EncodeGroup(b);
    DecodeQuad(x, y, z, Encode(rest), rest);
    SplitThree(b);
  }

  /** Every byte string survives encoding and decoding. */
  lemma {:induction false} DecodeEncode(b: seq<int>)
    requires Bytes(b)
    ensures Decode(Encode(b)) == Some(b)
    decreases |b|
  {
    if |b| == 1 {
      assert b == [b[0]];
      DecodeOneByte(b[0]);
    } else if |b| == 2 {
      assert b == [b[0], b[1]];
      DecodeTwoBytes(b[0], b[1]);
    } else if |b| >= 3 {
      DecodeEncode(b[3..]);
      DecodeEncodeGroup(b);
    }
  }

  /** Only alphabet symbols and `=` appear in an encoding. */
  lemma {:induction false} EncodeAlphabet(b: seq<int>)
    requires Bytes(b)
    ensures forall i :: 0 <= i < |Encode(b)| ==> Encode(b)[i] == '=' || SymbolValue(Encode(b)[i]).Some?
    decreases |b|
  {
    if |b| >= 3 {
      EncodeAlphabet(b[3..]);
      var x, y, z := b[0], b[1], b[2];
      SymbolValueOfSymbol(x / 4);
      SymbolValueOfSymbol((x % 4) * 16 + y / 16);
      SymbolValueOfSymbol((y % 16) * 4 + z / 64);
      SymbolValueOfSymbol(z % 64);
      var s := Encode(b);
      assert forall i :: 4 <= i < |s| ==> s[i] == Encode(b[3..])[i - 4];
    } else if |b| == 2 {
      SymbolValueOfSymbol(b[0] / 4);
      SymbolValueOfSymbol((b[0] % 4) * 16 + b[1] / 16);
      SymbolValueOfSymbol((b[1] % 16) * 4);
    } else if |b| == 1 {
      SymbolValueOfSymbol(b[0] / 4);
      SymbolValueOfSymbol((b[0] % 4) * 16);
    }
  }
}
