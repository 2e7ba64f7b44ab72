/**
 * Base 64 encoding with the standard alphabet and '=' padding, as defined
 * in section 4 of RFC 4648, over bytes; and UTF-8, which `Buffer.from`
 * applies to a string before encoding it.
 */
module Base64 {
  import opened Wrappers

  type Byte = b: int | 0 <= b < 256

  type Sextet = d: int | 0 <= d < 64

  /** Table 1 of RFC 4648: the 64-character alphabet. */
  function CharOf(d: Sextet): (c: char) {
    if d < 26 then (('A' as int) + d) as char
    else if d < 52 then (('a' as int) + d - 26) as char
    else if d < 62 then (('0' as int) + d - 52) as char
    else if d == 62 then '+'
    else '/'
  }

  function IndexOf(c: char): (r: Option<Sextet>)
    ensures r.Some? ==> CharOf(r.value) == c
  {
    if 'A' <= c <= 'Z' then Some((c as int) - ('A' as int))
    else if 'a' <= c <= 'z' then Some((c as int) - ('a' as int) + 26)
    else if '0' <= c <= '9' then Some((c as int) - ('0' as int) + 52)
    else if c == '+' then Some(62)
    else if c == '/' then Some(63)
    else None
  }

  lemma IndexOfCharOf(d: Sextet)
    ensures IndexOf(CharOf(d)) == Some(d)
  {
  }

  /** Three bytes become four characters (section 4, the 24-bit group). */
  function EncodeGroup(b0: Byte, b1: Byte, b2: Byte): string {
    [CharOf(b0 / 4), CharOf((b0 % 4) * 16 + b1 / 16), CharOf((b1 % 16) * 4 + b2 / 64), CharOf(b2 % 64)]
  }

  /** Encoding of the whole input: full groups, then a final group of one or two bytes padded with '='. */
  function Encode(bs: seq<Byte>): (s: string)
    ensures |s| % 4 == 0
    ensures |s| == 4 * ((|bs| + 2) / 3)
  {
    if |bs| == 0 then ""
    else if |bs| == 1 then [CharOf(bs[0] / 4), CharOf((bs[0] % 4) * 16), '=', '=']
    else if |bs| == 2 then
      [CharOf(bs[0] / 4), CharOf((bs[0] % 4) * 16 + bs[1] / 16), CharOf((bs[1] % 16) * 4), '=']
    else EncodeGroup(bs[0], bs[1], bs[2]) + Encode(bs[3..])
  }

  /** Decoding of one four-character group, which may end in padding. */
  function DecodeGroup(q: string): (r: Option<seq<Byte>>)
    requires |q| == 4
    ensures r.Some? ==> 1 <= |r.value| <= 3
  {
    var i0, i1, i2, i3 := IndexOf(q[0]), IndexOf(q[1]), IndexOf(q[2]), IndexOf(q[3]);
    if i0.None? || i1.None? then None
    else
      var b0: Byte := i0.value * 4 + i1.value / 16;
      if q[2] == '=' && q[3] == '=' then Some([b0])
      else if i2.None? then None
      else
        var b1: Byte := (i1.value % 16) * 16 + i2.value / 4;
        if q[3] == '=' then Some([b0, b1])
        else if i3.None? then None
        else Some([b0, b1, (i2.value % 4) * 64 + i3.value])
  }

  /** Decoding: every group but the last must be full. */
  function Decode(s: string): (r: Option<seq<Byte>>)
  {
    if |s| == 0 then Some([])
    else if |s| < 4 then None
    else
      var g := DecodeGroup(s[..4]);
      if g.None? then None
      else if |s| == 4 then g
      else if |g.value| < 3 then None
      else
        var rest := Decode(s[4..]);
        if rest.None? then None else Some(g.value + rest.value)
  }

  /** The arithmetic behind one group: each byte is rebuilt from the two sextets it was spread over. */
  lemma Regroup(b0: Byte, b1: Byte, b2: Byte)
    ensures ((b0 % 4) * 16 + b1 / 16) / 16 == b0 % 4
    ensures ((b0 % 4) * 16 + b1 / 16) % 16 == b1 / 16
    ensures ((b1 % 16) * 4 + b2 / 64) / 4 == b1 % 16
    ensures ((b1 % 16) * 4 + b2 / 64) % 4 == b2 / 64
    ensures (b0 / 4) * 4 + b0 % 4 == b0
    ensures (b1 / 16) * 16 + b1 % 16 == b1
    ensures (b2 / 64) * 64 + b2 % 64 == b2
  {
  }

  lemma DecodeEncodeGroup(b0: Byte, b1: Byte, b2: Byte)
    ensures DecodeGroup(EncodeGroup(b0, b1, b2)) == Some([b0, b1, b2])
  {
    var d0: Sextet, d1: Sextet, d2: Sextet, d3: Sextet :=
      b0 / 4, (b0 % 4) * 16 + b1 / 16, (b1 % 16) * 4 + b2 / 64, b2 % 64;
    var q := EncodeGroup(b0, b1, b2);
    assert q == [CharOf(d0), CharOf(d1), CharOf(d2), CharOf(d3)];
    IndexOfCharOf(d0);
    IndexOfCharOf(d1);
    IndexOfCharOf(d2);
    IndexOfCharOf(d3);
    Regroup(b0, b1, b2);
    assert q[2] != '=' && q[3] != '=';
  }

  lemma DecodeEncodeOne(b0: Byte)
    ensures Decode(Encode([b0])) == Some([b0])
  {
    var d0: Sextet, d1: Sextet := b0 / 4, (b0 % 4) * 16;
    var s := Encode([b0]);
    assert s == [CharOf(d0), CharOf(d1), '=', '='];
    IndexOfCharOf(d0);
    IndexOfCharOf(d1);
    Regroup(b0, 0, 0);
    assert s[..4] == s;
  }

  lemma DecodeEncodeTwo(b0: Byte, b1: Byte)
    ensures Decode(Encode([b0, b1])) == Some([b0, b1])
  {
    var d0: Sextet, d1: Sextet, d2: Sextet := b0 / 4, (b0 % 4) * 16 + b1 / 16, (b1 % 16) * 4;
    var s := Encode([b0, b1]);
    assert s == [CharOf(d0), CharOf(d1), CharOf(d2), '='];
    IndexOfCharOf(d0);
    IndexOfCharOf(d1);
    IndexOfCharOf(d2);
    Regroup(b0, b1, 0);
    assert s[..4] == s;
    assert s[2] != '=';
  }

  /** Decoding an encoding gives back the bytes (the round trip of RFC 4648, section 4). */
  lemma {:induction false} DecodeEncode(bs: seq<Byte>)
    ensures Decode(Encode(bs)) == Some(bs)
    decreases |bs|
  {
    if |bs| == 1 {
      var b0 := bs[0];
      assert bs == [b0];
      DecodeEncodeOne(b0);
    } else if |bs| == 2 {
      var b0, b1 := bs[0], bs[1];
      assert bs == [b0, b1];
      DecodeEncodeTwo(b0, b1);
    } else if |bs| >= 3 {
      var b0, b1, b2, tail := bs[0], bs[1], bs[2], bs[3..];
      assert bs == [b0, b1, b2] + tail;
      DecodeEncode(tail);
      DecodeGroupThen(b0, b1, b2, Encode(tail), tail);
      assert Encode(bs) == EncodeGroup(b0, b1, b2) + Encode(tail);
    }
  }

  /** A full group in front of a decodable text decodes to its three bytes in front of the text's bytes. */
  lemma DecodeGroupThen(b0: Byte, b1: Byte, b2: Byte, rest: string, tail: seq<Byte>)
    requires Decode(rest) == Some(tail)
    ensures Decode(EncodeGroup(b0, b1, b2) + rest) == Some([b0, b1, b2] + tail)
  {
    var g := EncodeGroup(b0, b1, b2);
    var s := g + rest;
    assert s[..4] == g;
    DecodeEncodeGroup(b0, b1, b2);
    if |rest| == 0 {
      assert s == g;
      assert [b0, b1, b2] + tail == [b0, b1, b2];
    } else {
      assert s[4..] == rest;
    }
  }

  // ---------------------------------------------------------------- UTF-8

  /** UTF-8 encoding of one Unicode scalar value. */
  function Utf8Char(c: char): (bs: seq<Byte>)
    ensures 1 <= |bs| <= 4
    ensures (c as int) < 128 ==> bs == [c as int]
  {
    var n := c as int;
    if n < 0x80 then [n]
    else if n < 0x800 then [0xC0 + n / 64, 0x80 + n % 64]
    else if n < 0x10000 then [0xE0 + n / 4096, 0x80 + (n / 64) % 64, 0x80 + n % 64]
    else [0xF0 + n / 262144, 0x80 + (n / 4096) % 64, 0x80 + (n / 64) % 64, 0x80 + n % 64]
  }

  /** `Buffer.from(s)`: the UTF-8 bytes of a string. */
  function Utf8(s: string): (bs: seq<Byte>)
    ensures |bs| >= |s|
  {
    if |s| == 0 then [] else Utf8Char(s[0]) + Utf8(s[1..])
  }

  predicate IsAscii(s: string) {
    forall i :: 0 <= i < |s| ==> (s[i] as int) < 128
  }

  /** On ASCII text, UTF-8 is one byte per character, the character's code. */
  lemma {:induction false} Utf8Ascii(s: string)
    requires IsAscii(s)
    ensures |Utf8(s)| == |s|
    ensures forall i :: 0 <= i < |s| ==> Utf8(s)[i] == s[i] as int
  {
    if |s| > 0 {
      Utf8Ascii(s[1..]);
    }
  }
}
