/** Little-endian fixed-width integers on the wire, as CIP requires, and the
    cursor-advancing helpers (AddIntToMessage, GetIntFromMessage, ...) that the
    codecs call. A message cursor `EipUint8 **message` is modelled as a buffer
    and a position: writers return the advanced position, readers return the
    value together with it. */
module EndianConv {
  import opened CipTypes

  /** 256 to the power n: the number of values that fit in n bytes. */
  function Pow256(n: nat): (r: nat)
    ensures r >= 1
  {
    if n == 0 then 1 else 256 * Pow256(n - 1)
  }

  /** The `width` low bytes of x, least significant first. */
  function LittleEndian(x: nat, width: nat): (r: seq<uint8>)
    ensures |r| == width
  {
    if width == 0 then [] else [x % 256] + LittleEndian(x / 256, width - 1)
  }

  /** The number whose little-endian bytes are s. */
  function FromLittleEndian(s: seq<uint8>): (r: nat)
    ensures r < Pow256(|s|)
  {
    if s == [] then 0 else s[0] + 256 * FromLittleEndian(s[1..])
  }

  /** Decoding undoes encoding for every value that fits in the width. */
  lemma {:induction false} LittleEndianRoundTrip(x: nat, width: nat)
    requires x < Pow256(width)
    ensures FromLittleEndian(LittleEndian(x, width)) == x
  {
    if width > 0 {
      assert x / 256 < Pow256(width - 1);
      LittleEndianRoundTrip(x / 256, width - 1);
      assert LittleEndian(x, width)[1..] == LittleEndian(x / 256, width - 1);
    }
  }

  /** Encoding undoes decoding: every byte string is the encoding of its value. */
  lemma {:induction false} FromLittleEndianRoundTrip(s: seq<uint8>)
    ensures LittleEndian(FromLittleEndian(s), |s|) == s
  {
    if s != [] {
      FromLittleEndianRoundTrip(s[1..]);
      var x := FromLittleEndian(s);
      assert x % 256 == s[0];
      assert x / 256 == FromLittleEndian(s[1..]);
    }
  }

  /** s with the bytes at [at, at + |bytes|) replaced by bytes: what a write
      through a cursor at position `at` does to a buffer, one byte at a time. */
  function Splice(s: seq<uint8>, at: nat, bytes: seq<uint8>): (r: seq<uint8>)
    requires at + |bytes| <= |s|
    ensures |r| == |s|
    decreases |bytes|
  {
    if bytes == [] then s else Splice(s[at := bytes[0]], at + 1, bytes[1..])
  }

  /** Two writes in a row through an advancing cursor are one write of both. */
  lemma {:induction false} SpliceTwice(s: seq<uint8>, at: nat, a: seq<uint8>, b: seq<uint8>)
    requires at + |a| + |b| <= |s|
    ensures Splice(Splice(s, at, a), at + |a|, b) == Splice(s, at, a + b)
    decreases |a|
  {
    if a == [] {
      assert a + b == b;
    } else {
      SpliceTwice(s[at := a[0]], at + 1, a[1..], b);
      assert (a + b)[0] == a[0];
      assert (a + b)[1..] == a[1..] + b;
    }
  }

  /** A one-byte write is an update of that index. */
  lemma SpliceOne(s: seq<uint8>, at: nat, b: uint8)
    requires at < |s|
    ensures Splice(s, at, [b]) == s[at := b]
  {
    assert [b][1..] == [];
  }

  /** The written bytes sit at [at, at + |bytes|) and nothing else changes. */
  lemma {:induction false} SpliceContents(s: seq<uint8>, at: nat, bytes: seq<uint8>)
    requires at + |bytes| <= |s|
    ensures Splice(s, at, bytes) == s[..at] + bytes + s[at + |bytes|..]
    decreases |bytes|
  {
    if bytes != [] {
      var t := s[at := bytes[0]];
      SpliceContents(t, at + 1, bytes[1..]);
      assert t[..at + 1] == s[..at] + [bytes[0]];
      assert t[at + 1 + |bytes[1..]|..] == s[at + |bytes|..];
      assert [bytes[0]] + bytes[1..] == bytes;
    }
  }

  /** Writes one byte at the cursor and advances it. */
  method PutByte(buf: array<uint8>, pos: nat, b: uint8) returns (next: nat)
    requires pos + 1 <= buf.Length
    modifies buf
    ensures buf[..] == Splice(old(buf[..]), pos, [b])
    ensures next == pos + 1
  {
    buf[pos] := b;
    SpliceOne(old(buf[..]), pos, b);
    next := pos + 1;
  }

  /** Writes the little-endian bytes of x, `width` of them, at the cursor. */
  method PutLittleEndian(buf: array<uint8>, pos: nat, x: nat, width: nat) returns (next: nat)
    requires pos + width <= buf.Length
    modifies buf
    ensures buf[..] == Splice(old(buf[..]), pos, LittleEndian(x, width))
    ensures next == pos + width
  {
    var i := 0;
    var rest := x;
    while i < width
      invariant 0 <= i <= width
      invariant buf[..] == Splice(old(buf[..]), pos, LittleEndian(x, width)[..i])
      invariant LittleEndian(x, width)[i..] == LittleEndian(rest, width - i)
    {
      ghost var before := buf[..];
      buf[pos + i] := rest % 256;
      assert LittleEndian(rest, width - i) == [rest % 256] + LittleEndian(rest / 256, width - i - 1);
      SpliceTwice(old(buf[..]), pos, LittleEndian(x, width)[..i], [rest % 256]);
      assert LittleEndian(x, width)[..i + 1] == LittleEndian(x, width)[..i] + [rest % 256];
      SpliceOne(before, pos + i, rest % 256);
      assert LittleEndian(x, width)[i + 1..] == LittleEndian(rest / 256, width - i - 1);
      rest := rest / 256;
      i := i + 1;
    }
    assert LittleEndian(x, width)[..width] == LittleEndian(x, width);
    next := pos + width;
  }

  /** AddIntToMessage: a 16-bit value, least significant byte first. */
  method AddIntToMessage(buf: array<uint8>, pos: nat, value: uint16) returns (next: nat)
    requires pos + 2 <= buf.Length
    modifies buf
    ensures buf[..] == Splice(old(buf[..]), pos, LittleEndian(value, 2))
    ensures next == pos + 2
  {
    next := PutLittleEndian(buf, pos, value, 2);
  }

  /** AddDintToMessage: a 32-bit value, least significant byte first. */
  method AddDintToMessage(buf: array<uint8>, pos: nat, value: uint32) returns (next: nat)
    requires pos + 4 <= buf.Length
    modifies buf
    ensures buf[..] == Splice(old(buf[..]), pos, LittleEndian(value, 4))
    ensures next == pos + 4
  {
    next := PutLittleEndian(buf, pos, value, 4);
  }

  /** AddLintToMessage: a 64-bit value, least significant byte first. */
  method AddLintToMessage(buf: array<uint8>, pos: nat, value: uint64) returns (next: nat)
    requires pos + 8 <= buf.Length
    modifies buf
    ensures buf[..] == Splice(old(buf[..]), pos, LittleEndian(value, 8))
    ensures next == pos + 8
  {
    next := PutLittleEndian(buf, pos, value, 8);
  }

  /** memcpy into the message, then advance by the length copied. */
  method PutBytes(buf: array<uint8>, pos: nat, bytes: seq<uint8>) returns (next: nat)
    requires pos + |bytes| <= buf.Length
    modifies buf
    ensures buf[..] == Splice(old(buf[..]), pos, bytes)
    ensures next == pos + |bytes|
  {
    var i := 0;
    while i < |bytes|
      invariant 0 <= i <= |bytes|
      invariant buf[..] == Splice(old(buf[..]), pos, bytes[..i])
    {
      SpliceOne(buf[..], pos + i, bytes[i]);
      buf[pos + i] := bytes[i];
      SpliceTwice(old(buf[..]), pos, bytes[..i], [bytes[i]]);
      assert bytes[..i + 1] == bytes[..i] + [bytes[i]];
      i := i + 1;
    }
    assert bytes[..i] == bytes;
    next := pos + |bytes|;
  }

  /** Reads `width` bytes at the cursor as a little-endian number. */
  method GetLittleEndian(buf: array<uint8>, pos: nat, width: nat) returns (x: nat, next: nat)
    requires pos + width <= buf.Length
    ensures x == FromLittleEndian(buf[pos..pos + width])
    ensures next == pos + width
  {
    x := 0;
    var i := width;
    while i > 0
      invariant 0 <= i <= width
      invariant x == FromLittleEndian(buf[pos + i..pos + width])
    {
      i := i - 1;
      assert buf[pos + i..pos + width][1..] == buf[pos + i + 1..pos + width];
      x := buf[pos + i] + 256 * x;
    }
    next := pos + width;
  }

  /** GetIntFromMessage: a 16-bit little-endian value. */
  method GetIntFromMessage(buf: array<uint8>, pos: nat) returns (value: uint16, next: nat)
    requires pos + 2 <= buf.Length
    ensures value == FromLittleEndian(buf[pos..pos + 2])
    ensures next == pos + 2
  {
    var x;
    x, next := GetLittleEndian(buf, pos, 2);
    value := x;
  }

  /** GetDintFromMessage: a 32-bit little-endian value. */
  method GetDintFromMessage(buf: array<uint8>, pos: nat) returns (value: uint32, next: nat)
    requires pos + 4 <= buf.Length
    ensures value == FromLittleEndian(buf[pos..pos + 4])
    ensures next == pos + 4
  {
    var x;
    x, next := GetLittleEndian(buf, pos, 4);
    value := x;
  }

  /** GetLintFromMessage: a 64-bit little-endian value. */
  method GetLintFromMessage(buf: array<uint8>, pos: nat) returns (value: uint64, next: nat)
    requires pos + 8 <= buf.Length
    ensures value == FromLittleEndian(buf[pos..pos + 8])
    ensures next == pos + 8
  {
    var x;
    x, next := GetLittleEndian(buf, pos, 8);
    value := x;
  }

  /** memcpy out of the message: the `len` bytes at the cursor. */
  method GetBytes(buf: array<uint8>, pos: nat, len: nat) returns (bytes: seq<uint8>, next: nat)
    requires pos + len <= buf.Length
    ensures bytes == buf[pos..pos + len]
    ensures next == pos + len
  {
    bytes := [];
    var i := 0;
    while i < len
      invariant 0 <= i <= len
      invariant bytes == buf[pos..pos + i]
    {
      bytes := bytes + [buf[pos + i]];
      i := i + 1;
    }
    next := pos + len;
  }
}
