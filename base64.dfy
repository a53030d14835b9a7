/** Octets. */
module Bytes {
  newtype byte = b: int | 0 <= b < 256
}

/** UTF-8 (RFC 3629), the encoding `str.encode()` and `bytes.decode()` use
    by default. */
module Utf8 {
  import opened Bytes
  import opened PyJson

  /** The code points a `char` can hold: Unicode scalar values. */
  predicate IsScalar(cp: int) {
    0 <= cp < 0xD800 || 0xE000 <= cp < 0x11_0000
  }

  /** A continuation byte, `10xxxxxx`. */
  predicate IsContinuation(b: byte) {
    0x80 <= b < 0xC0
  }

  /** The six payload bits of a continuation byte. */
  function Low6(b: byte): int {
    b as int - 0x80
  }

  /** The one to four bytes of one character. */
  function EncodeChar(c: char): (bs: seq<byte>)
    ensures 1 <= |bs| <= 4
    ensures |bs| == 1 <==> (c as int) < 0x80
  {
    var cp := c as int;
    if cp < 0x80 then [cp as byte]
    else if cp < 0x800 then [(0xC0 + cp / 64) as byte, (0x80 + cp % 64) as byte]
    else if cp < 0x1_0000 then
      [(0xE0 + cp / 4096) as byte, (0x80 + (cp / 64) % 64) as byte, (0x80 + cp % 64) as byte]
    else
      [(0xF0 + cp / 262144) as byte, (0x80 + (cp / 4096) % 64) as byte,
       (0x80 + (cp / 64) % 64) as byte, (0x80 + cp % 64) as byte]
  }

  /** `s.encode()`: the characters' encodings, in order. */
  function Encode(s: string): seq<byte> {
    if s == [] then [] else EncodeChar(s[0]) + Encode(s[1..])
  }

  /** The first character of `bs` and the number of bytes it takes, or
      `None` when the bytes there are not well-formed UTF-8 (a stray
      continuation, a truncated sequence, an overlong form, a surrogate or a
      code point past U+10FFFF). */
  function DecodeChar(bs: seq<byte>): (r: Option<(char, nat)>)
    requires |bs| > 0
    ensures r.Some? ==> 1 <= r.value.1 <= |bs|
  {
    var b0 := bs[0] as int;
    if b0 < 0x80 then Some((b0 as char, 1))
    else if 0xC2 <= b0 < 0xE0 && |bs| >= 2 && IsContinuation(bs[1]) then
      Some((((b0 - 0xC0) * 64 + Low6(bs[1])) as char, 2))
    else if 0xE0 <= b0 < 0xF0 && |bs| >= 3 && IsContinuation(bs[1]) && IsContinuation(bs[2]) then
      var cp := (b0 - 0xE0) * 4096 + Low6(bs[1]) * 64 + Low6(bs[2]);
      if 0x800 <= cp && IsScalar(cp) then Some((cp as char, 3)) else None
    else if 0xF0 <= b0 < 0xF5 && |bs| >= 4 && IsContinuation(bs[1]) && IsContinuation(bs[2])
            && IsContinuation(bs[3]) then
      var cp := (b0 - 0xF0) * 262144 + Low6(bs[1]) * 4096 + Low6(bs[2]) * 64 + Low6(bs[3]);
      if 0x1_0000 <= cp < 0x11_0000 then Some((cp as char, 4)) else None
    else None
  }

  /** `bs.decode()`, with `None` for a `UnicodeDecodeError`. */
  function Decode(bs: seq<byte>): Option<string>
    decreases |bs|
  {
    if bs == [] then Some([])
    else match DecodeChar(bs)
      case None => None
      case Some((c, n)) =>
        match Decode(bs[n..])
        case None => None
        case Some(rest) => Some([c] + rest)
  }

  /** Each character's bytes decode back to that character, whatever follows. */
  lemma EncodeCharDecodes(c: char, rest: seq<byte>)
    ensures DecodeChar(EncodeChar(c) + rest) == Some((c, |EncodeChar(c)|))
  {
    var cp := c as int;
    var bs := EncodeChar(c) + rest;
    if cp < 0x80 {
    } else if cp < 0x800 {
      assert bs[0] as int == 0xC0 + cp / 64 && Low6(bs[1]) == cp % 64;
      assert (cp / 64) * 64 + cp % 64 == cp;
    } else if cp < 0x1_0000 {
      var q := cp / 64;
      assert q / 64 == cp / 4096;
      assert bs[0] as int == 0xE0 + cp / 4096 && Low6(bs[1]) == q % 64 && Low6(bs[2]) == cp % 64;
      assert (cp / 4096) * 4096 + (q % 64) * 64 + cp % 64 == cp;
    } else {
      var q := cp / 64;
      var p := q / 64;
      assert p == cp / 4096 && p / 64 == cp / 262144;
      assert bs[0] as int == 0xF0 + cp / 262144 && Low6(bs[1]) == p % 64;
      assert Low6(bs[2]) == q % 64 && Low6(bs[3]) == cp % 64;
      assert (cp / 262144) * 262144 + (p % 64) * 4096 + (q % 64) * 64 + cp % 64 == cp;
    }
  }

  /** Decoding the encoding of a text gives the text back. */
  lemma {:induction false} DecodeEncode(s: string)
    ensures Decode(Encode(s)) == Some(s)
  {
    if s != [] {
      var head := EncodeChar(s[0]);
      var tail := Encode(s[1..]);
      EncodeCharDecodes(s[0], tail);
      assert (head + tail)[|head|..] == tail;
      DecodeEncode(s[1..]);
      assert [s[0]] + s[1..] == s;
    }
  }

  /** An ASCII text encodes to one byte per character, its code. */
  lemma {:induction false} AsciiEncoding(s: string)
    requires forall i :: 0 <= i < |s| ==> (s[i] as int) < 0x80
    ensures |Encode(s)| == |s|
    ensures forall i :: 0 <= i < |s| ==> Encode(s)[i] as int == s[i] as int
  {
    if s != [] {
      AsciiEncoding(s[1..]);
    }
  }
}

/** Base64 with the standard alphabet and `=` padding, section 4 of
    RFC 4648: what `base64.b64encode` produces. */
module Base64 {
  import opened Bytes
  import opened PyJson

  const Pad: char := '='

  /** Table 1 of RFC 4648: A-Z, a-z, 0-9, `+`, `/` for the values 0 to 63. */
  function CharOf(v: int): (c: char)
    requires 0 <= v < 64
  {
    if v < 26 then ('A' as int + v) as char
    else if v < 52 then ('a' as int + (v - 26)) as char
    else if v < 62 then ('0' as int + (v - 52)) as char
    else if v == 62 then '+'
    else '/'
  }

  /** The value a character stands for, or `None` outside the alphabet. */
  function ValueOf(c: char): (v: Option<int>)
    ensures v.Some? ==> 0 <= v.value < 64
  {
    if 'A' <= c <= 'Z' then Some(c as int - 'A' as int)
    else if 'a' <= c <= 'z' then Some(c as int - 'a' as int + 26)
    else if '0' <= c <= '9' then Some(c as int - '0' as int + 52)
    else if c == '+' then Some(62)
    else if c == '/' then Some(63)
    else None
  }

  /** The alphabet is one-to-one, and the pad character is not in it. */
  lemma AlphabetInverse(v: int)
    requires 0 <= v < 64
    ensures ValueOf(CharOf(v)) == Some(v)
    ensures CharOf(v) != Pad
  {}

  /** Three bytes become four characters, six bits each. */
  function EncodeGroup(a: byte, b: byte, c: byte): string {
    var x, y, z := a as int, b as int, c as int;
    [CharOf(x / 4), CharOf((x % 4) * 16 + y / 16), CharOf((y % 16) * 4 + z / 64), CharOf(z % 64)]
  }

  /** `base64.b64encode(bs).decode()`: whole groups, then a final group of
      one or two bytes padded with `==` or `=`. */
  function Encode(bs: seq<byte>): string
    decreases |bs|
  {
    if |bs| == 0 then ""
    else if |bs| == 1 then
      var x := bs[0] as int;
      [CharOf(x / 4), CharOf((x % 4) * 16), Pad, Pad]
    else if |bs| == 2 then
      var x, y := bs[0] as int, bs[1] as int;
      [CharOf(x / 4), CharOf((x % 4) * 16 + y / 16), CharOf((y % 16) * 4), Pad]
    else EncodeGroup(bs[0], bs[1], bs[2]) + Encode(bs[3..])
  }

  /** Four characters back to their bytes; padding is accepted only in the
      last group. */
  function DecodeGroup(c0: char, c1: char, c2: char, c3: char, last: bool): Option<seq<byte>> {
    var v0, v1, v2, v3 := ValueOf(c0), ValueOf(c1), ValueOf(c2), ValueOf(c3);
    if v0.None? || v1.None? then None
    else if c2 == Pad && c3 == Pad then
      if last then Some([(v0.value * 4 + v1.value / 16) as byte]) else None
    else if v2.None? then None
    else if c3 == Pad then
      if last then Some([(v0.value * 4 + v1.value / 16) as byte,
                         ((v1.value % 16) * 16 + v2.value / 4) as byte]) else None
    else if v3.None? then None
    else Some([(v0.value * 4 + v1.value / 16) as byte,
               ((v1.value % 16) * 16 + v2.value / 4) as byte,
               ((v2.value % 4) * 64 + v3.value) as byte])
  }

  /** Decoding per section 4 of RFC 4648; `None` for a length that is not a
      multiple of four, a character outside the alphabet or misplaced
      padding. */
  function Decode(s: string): Option<seq<byte>>
    decreases |s|
  {
    if |s| == 0 then Some([])
    else if |s| < 4 then None
    else match DecodeGroup(s[0], s[1], s[2], s[3], |s| == 4)
      case None => None
      case Some(group) =>
        match Decode(s[4..])
        case None => None
        case Some(more) => Some(group + more)
  }

  /** Four characters for every started group of three bytes. */
  lemma {:induction false} EncodedLength(bs: seq<byte>)
    ensures |Encode(bs)| == 4 * ((|bs| + 2) / 3)
    decreases |bs|
  {
    if |bs| >= 3 {
      EncodedLength(bs[3..]);
      assert (|bs| + 2) / 3 == (|bs[3..]| + 2) / 3 + 1;
    }
  }

  /** Every character of an encoding is in the alphabet or is padding. */
  lemma {:induction false} EncodedAlphabet(bs: seq<byte>)
    ensures forall i :: 0 <= i < |Encode(bs)| ==> Encode(bs)[i] == Pad || ValueOf(Encode(bs)[i]).Some?
    decreases |bs|
  {
    if |bs| >= 3 {
      EncodedAlphabet(bs[3..]);
      var g := EncodeGroup(bs[0], bs[1], bs[2]);
      forall i | 0 <= i < 4
        ensures ValueOf(g[i]).Some?
      {
        var x, y, z := bs[0] as int, bs[1] as int, bs[2] as int;
        AlphabetInverse(x / 4);
        AlphabetInverse((x % 4) * 16 + y / 16);
        AlphabetInverse((y % 16) * 4 + z / 64);
        AlphabetInverse(z % 64);
      }
    } else if |bs| == 1 {
      AlphabetInverse(bs[0] as int / 4);
      AlphabetInverse((bs[0] as int % 4) * 16);
    } else if |bs| == 2 {
      var x, y := bs[0] as int, bs[1] as int;
      AlphabetInverse(x / 4);
      AlphabetInverse((x % 4) * 16 + y / 16);
      AlphabetInverse((y % 16) * 4);
    }
  }

  /** Regrouping six-bit values into bytes recovers the bytes. */
  lemma GroupBits(x: int, y: int, z: int)
    requires 0 <= x < 256 && 0 <= y < 256 && 0 <= z < 256
    ensures var v1 := (x % 4) * 16 + y / 16;
            var v2 := (y % 16) * 4 + z / 64;
            (x / 4) * 4 + v1 / 16 == x && (v1 % 16) * 16 + v2 / 4 == y && (v2 % 4) * 64 + z % 64 == z
  {
    var v1 := (x % 4) * 16 + y / 16;
    var v2 := (y % 16) * 4 + z / 64;
    assert v1 / 16 == x % 4 && v1 % 16 == y / 16 by { Split16(x % 4, y / 16); }
    assert v2 / 4 == y % 16 && v2 % 4 == z / 64 by { Split4(y % 16, z / 64); }
  }

  lemma Split16(k: int, r: int)
    requires 0 <= r < 16
    ensures (k * 16 + r) / 16 == k && (k * 16 + r) % 16 == r
  {
    var n := k * 16 + r;
    assert n == 16 * (n / 16) + n % 16;
  }

  lemma Split4(k: int, r: int)
    requires 0 <= r < 4
    ensures (k * 4 + r) / 4 == k && (k * 4 + r) % 4 == r
  {
    var n := k * 4 + r;
    assert n == 4 * (n / 4) + n % 4;
  }

  /** A whole group decodes to its three bytes. */
  lemma GroupRoundTrip(a: byte, b: byte, c: byte, last: bool)
    ensures var g := EncodeGroup(a, b, c);
            DecodeGroup(g[0], g[1], g[2], g[3], last) == Some([a, b, c])
  {
    var x, y, z := a as int, b as int, c as int;
    AlphabetInverse(x / 4);
    AlphabetInverse((x % 4) * 16 + y / 16);
    AlphabetInverse((y % 16) * 4 + z / 64);
    AlphabetInverse(z % 64);
    GroupBits(x, y, z);
  }

  /** A final single byte, padded with `==`, decodes to itself. */
  lemma OneByteRoundTrip(a: byte)
    ensures Decode(Encode([a])) == Some([a])
  {
    var x := a as int;
    AlphabetInverse(x / 4);
    AlphabetInverse((x % 4) * 16);
    assert ((x % 4) * 16) / 16 == x % 4 by { Split16(x % 4, 0); }
    var s := Encode([a]);
    assert |s| == 4 && DecodeGroup(s[0], s[1], s[2], s[3], |s| == 4) == Some([a]);
    assert Decode(s[4..]) == Some([]);
    assert [a] + [] == [a];
  }

  /** A final pair of bytes, padded with `=`, decodes to itself. */
  lemma TwoByteRoundTrip(a: byte, b: byte)
    ensures Decode(Encode([a, b])) == Some([a, b])
  {
    var x, y := a as int, b as int;
    AlphabetInverse(x / 4);
    AlphabetInverse((x % 4) * 16 + y / 16);
    AlphabetInverse((y % 16) * 4);
    GroupBits(x, y, 0);
    assert ((y % 16) * 4) / 4 == y % 16 by { Split4(y % 16, 0); }
    var s := Encode([a, b]);
    assert |s| == 4 && DecodeGroup(s[0], s[1], s[2], s[3], |s| == 4) == Some([a, b]);
    assert Decode(s[4..]) == Some([]);
    assert [a, b] + [] == [a, b];
  }

  /** Decoding an encoding gives the bytes back. */
  lemma {:induction false} DecodeEncode(bs: seq<byte>)
    ensures Decode(Encode(bs)) == Some(bs)
    decreases |bs|
  {
    if |bs| == 1 {
      OneByteRoundTrip(bs[0]);
      assert [bs[0]] == bs;
    } else if |bs| == 2 {
      TwoByteRoundTrip(bs[0], bs[1]);
      assert [bs[0], bs[1]] == bs;
    } else if |bs| >= 3 {
      var g := EncodeGroup(bs[0], bs[1], bs[2]);
      var rest := Encode(bs[3..]);
      GroupRoundTrip(bs[0], bs[1], bs[2], rest == []);
      DecodeEncode(bs[3..]);
      DecodeCons(g, rest, [bs[0], bs[1], bs[2]], bs[3..]);
      assert [bs[0], bs[1], bs[2]] + bs[3..] == bs;
    }
  }

  /** A group that decodes, followed by a text that decodes, decodes to
      the two results one after the other. */
  lemma DecodeCons(g: string, rest: string, group: seq<byte>, more: seq<byte>)
    requires |g| == 4 && DecodeGroup(g[0], g[1], g[2], g[3], rest == []) == Some(group)
    requires Decode(rest) == Some(more)
    ensures Decode(g + rest) == Some(group + more)
  {
    var s := g + rest;
    assert s[0] == g[0] && s[1] == g[1] && s[2] == g[2] && s[3] == g[3];
    assert s[4..] == rest;
  }
}
