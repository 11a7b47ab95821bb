/** The UTF-8 byte count the uploader reports as `fileSize` and sends as
    `Content-Length` (`Buffer.byteLength(content, 'utf8')`), following the
    ranges of section 3 of RFC 3629. `Length` is the count; `Encode` and
    `Decode` are the encoding it counts and its inverse. */
module Utf8 {
  import opened Wrappers

  newtype byte = x: int | 0 <= x < 256

  /** Bytes needed for one Unicode scalar value: 1 below U+0080, 2 below
      U+0800, 3 below U+10000, 4 otherwise. */
  function CharLength(c: char): (n: nat)
    ensures 1 <= n <= 4
  {
    var cp := c as int;
    if cp < 0x80 then 1 else if cp < 0x800 then 2 else if cp < 0x1_0000 then 3 else 4
  }

  /** `Buffer.byteLength(s, 'utf8')` */
  function Length(s: string): (n: nat)
    ensures |s| <= n <= 4 * |s|
  {
    if |s| == 0 then 0 else Length(s[..|s| - 1]) + CharLength(s[|s| - 1])
  }

  function Cont(x: int): byte
    requires 0 <= x
  {
    (0x80 + x % 64) as byte
  }

  /** The bytes of one scalar value. */
  function EncodeChar(c: char): (b: seq<byte>)
    ensures |b| == CharLength(c)
  {
    var cp := c as int;
    if cp < 0x80 then [cp as byte]
    else if cp < 0x800 then [(0xC0 + cp / 64) as byte, Cont(cp)]
    else if cp < 0x1_0000 then [(0xE0 + cp / 4096) as byte, Cont(cp / 64), Cont(cp)]
    else [(0xF0 + cp / 262144) as byte, Cont(cp / 4096), Cont(cp / 64), Cont(cp)]
  }

  function Encode(s: string): (b: seq<byte>) {
    if |s| == 0 then [] else Encode(s[..|s| - 1]) + EncodeChar(s[|s| - 1])
  }

  /** The byte count is the length of the encoding. */
  lemma {:induction false} EncodeLength(s: string)
    ensures |Encode(s)| == Length(s)
  {
    if |s| > 0 {
      EncodeLength(s[..|s| - 1]);
    }
  }

  predicate IsCont(b: byte) {
    0x80 <= b < 0xC0
  }

  /** Bytes a sequence starting with lead byte `b` occupies; 0 for a byte that
      cannot lead. */
  function SequenceLength(b: byte): nat {
    if b < 0x80 then 1
    else if 0xC0 <= b < 0xE0 then 2
    else if 0xE0 <= b < 0xF0 then 3
    else if 0xF0 <= b < 0xF8 then 4
    else 0
  }

  predicate IsScalar(cp: int) {
    0 <= cp < 0xD800 || 0xE000 <= cp < 0x11_0000
  }

  /** The smallest scalar value an `n`-byte sequence may encode: a smaller
      one in `n` bytes is an overlong form, which section 3 of RFC 3629
      forbids. */
  function MinScalar(n: nat): int {
    if n == 2 then 0x80 else if n == 3 then 0x800 else if n == 4 then 0x1_0000 else 0
  }

  /** The scalar value encoded by the first `SequenceLength(bytes[0])` bytes;
      None for a byte that cannot lead, a truncated or interrupted sequence,
      an overlong form, a surrogate or a value above U+10FFFF. A decoded
      value always occupies exactly its `CharLength`, so every well-formed
      sequence is the shortest one. */
  function DecodeFirst(bytes: seq<byte>): (r: Option<char>)
    requires |bytes| > 0
    ensures r.Some? ==> SequenceLength(bytes[0]) == CharLength(r.value)
  {
    var n := SequenceLength(bytes[0]);
    var b := bytes;
    if n == 0 || |b| < n || !(forall i | 1 <= i < n :: IsCont(b[i])) then None
    else
      var cp :=
        if n == 1 then b[0] as int
        else if n == 2 then (b[0] as int - 0xC0) * 64 + (b[1] as int - 0x80)
        else if n == 3 then (b[0] as int - 0xE0) * 4096 + (b[1] as int - 0x80) * 64 + (b[2] as int - 0x80)
        else (b[0] as int - 0xF0) * 262144 + (b[1] as int - 0x80) * 4096 + (b[2] as int - 0x80) * 64 + (b[3] as int - 0x80);
      if IsScalar(cp) && cp >= MinScalar(n) then Some(cp as char) else None
  }

  /** The overlong two-, three- and four-byte forms of U+0000 are refused. */
  lemma OverlongRejected()
    ensures DecodeFirst([0xC0, 0x80]) == None
    ensures DecodeFirst([0xE0, 0x80, 0x80]) == None
    ensures DecodeFirst([0xF0, 0x80, 0x80, 0x80]) == None
  {
  }

  /** Decode a byte sequence; None when it is not well formed. */
  function Decode(bytes: seq<byte>): (r: Option<string>)
    decreases |bytes|
  {
    if |bytes| == 0 then Some([])
    else
      match DecodeFirst(bytes)
      case None => None
      case Some(c) =>
        var n := SequenceLength(bytes[0]);
        match Decode(bytes[n..])
        case None => None
        case Some(rest) => Some([c] + rest)
  }

  /** Every well-formed byte sequence is exactly as long as the count of the
      text it decodes to, so the count is the length of any encoding of it. */
  lemma {:induction false} DecodedLength(bytes: seq<byte>, s: string)
    requires Decode(bytes) == Some(s)
    ensures |bytes| == Length(s)
    decreases |bytes|
  {
    if |bytes| > 0 {
      var c := DecodeFirst(bytes).value;
      var n := SequenceLength(bytes[0]);
      var rest := Decode(bytes[n..]).value;
      assert s == [c] + rest;
      DecodedLength(bytes[n..], rest);
      LengthAppend([c], rest);
      assert [c][..0] == [];
    }
  }

  /** One encoded scalar value decodes back, whatever follows it. */
  lemma DecodeEncodeChar(c: char, rest: seq<byte>)
    ensures SequenceLength(EncodeChar(c)[0]) == CharLength(c)
    ensures DecodeFirst(EncodeChar(c) + rest) == Some(c)
  {
    var cp := c as int;
    if cp < 0x80 {
    } else if cp < 0x800 {
      DecodeTwo(c, rest);
    } else if cp < 0x1_0000 {
      DecodeThree(c, rest);
    } else {
      DecodeFour(c, rest);
    }
  }

  lemma DecodeTwo(c: char, rest: seq<byte>)
    requires 0x80 <= c as int < 0x800
    ensures SequenceLength(EncodeChar(c)[0]) == 2
    ensures DecodeFirst(EncodeChar(c) + rest) == Some(c)
  {
    var cp := c as int;
    var b := EncodeChar(c) + rest;
    assert b[0] as int == 0xC0 + cp / 64 && b[1] as int == 0x80 + cp % 64;
    assert IsCont(b[1]);
  }

  lemma DecodeThree(c: char, rest: seq<byte>)
    requires 0x800 <= c as int < 0x1_0000
    ensures SequenceLength(EncodeChar(c)[0]) == 3
    ensures DecodeFirst(EncodeChar(c) + rest) == Some(c)
  {
    var cp := c as int;
    var b := EncodeChar(c) + rest;
    assert b[0] as int == 0xE0 + cp / 4096;
    assert b[1] as int == 0x80 + (cp / 64) % 64 && b[2] as int == 0x80 + cp % 64;
    assert IsCont(b[1]) && IsCont(b[2]);
    Digits64(cp, 3);
  }

  lemma DecodeFour(c: char, rest: seq<byte>)
    requires 0x1_0000 <= c as int
    ensures SequenceLength(EncodeChar(c)[0]) == 4
    ensures DecodeFirst(EncodeChar(c) + rest) == Some(c)
  {
    var cp := c as int;
    var b := EncodeChar(c) + rest;
    assert b[0] as int == 0xF0 + cp / 262144;
    assert b[1] as int == 0x80 + (cp / 4096) % 64;
    assert b[2] as int == 0x80 + (cp / 64) % 64 && b[3] as int == 0x80 + cp % 64;
    assert IsCont(b[1]) && IsCont(b[2]) && IsCont(b[3]);
    Digits64(cp, 4);
  }

  /** A number is the sum of its base-64 digits. */
  lemma Digits64(cp: nat, n: nat)
    requires n == 3 || n == 4
    ensures n == 3 ==> cp == (cp / 4096) * 4096 + ((cp / 64) % 64) * 64 + cp % 64
    ensures n == 4 ==> cp == (cp / 262144) * 262144 + ((cp / 4096) % 64) * 4096 + ((cp / 64) % 64) * 64 + cp % 64
  {
    var q := cp / 64;
    assert cp == q * 64 + cp % 64;
    assert q == (q / 64) * 64 + q % 64;
    assert q / 64 == cp / 4096;
    var q2 := cp / 4096;
    assert q2 == (q2 / 64) * 64 + q2 % 64;
    assert q2 / 64 == cp / 262144;
  }

  /** Encoding characters in front of a byte sequence. */
  function EncodeFront(s: string): (b: seq<byte>) {
    if |s| == 0 then [] else EncodeChar(s[0]) + EncodeFront(s[1..])
  }

  lemma {:induction false} EncodeFrontAppend(s: string, c: char)
    ensures EncodeFront(s + [c]) == EncodeFront(s) + EncodeChar(c)
  {
    if |s| > 0 {
      assert (s + [c])[1..] == s[1..] + [c];
      EncodeFrontAppend(s[1..], c);
    } else {
      assert s + [c] == [c];
    }
  }

  lemma {:induction false} EncodeIsFront(s: string)
    ensures Encode(s) == EncodeFront(s)
  {
    if |s| > 0 {
      EncodeIsFront(s[..|s| - 1]);
      EncodeFrontAppend(s[..|s| - 1], s[|s| - 1]);
      assert s[..|s| - 1] + [s[|s| - 1]] == s;
    }
  }

  lemma {:induction false} DecodeEncodeFront(s: string)
    ensures Decode(EncodeFront(s)) == Some(s)
  {
    if |s| > 0 {
      var head := EncodeChar(s[0]);
      var tail := EncodeFront(s[1..]);
      DecodeEncodeChar(s[0], tail);
      assert (head + tail)[0] == head[0];
      assert (head + tail)[|head|..] == tail;
      DecodeEncodeFront(s[1..]);
      assert [s[0]] + s[1..] == s;
    }
  }

  /** Decoding the encoding gives back the text: the encoding loses nothing. */
  lemma DecodeEncode(s: string)
    ensures Decode(Encode(s)) == Some(s)
  {
    EncodeIsFront(s);
    DecodeEncodeFront(s);
  }

  /** The count of a concatenation is the sum of the counts. */
  lemma {:induction false} LengthAppend(a: string, b: string)
    ensures Length(a + b) == Length(a) + Length(b)
    decreases |b|
  {
    if |b| == 0 {
      assert a + b == a;
    } else {
      assert (a + b)[..|a + b| - 1] == a + b[..|b| - 1];
      LengthAppend(a, b[..|b| - 1]);
    }
  }

  /** Between one and four bytes per character; exactly one for ASCII text. */
  lemma {:induction false} LengthBounds(s: string)
    ensures |s| <= Length(s) <= 4 * |s|
    ensures (forall i | 0 <= i < |s| :: s[i] as int < 0x80) ==> Length(s) == |s|
  {
    if |s| > 0 {
      LengthBounds(s[..|s| - 1]);
    }
  }
}
