/** EncodeData and DecodeData: the CIP data-type encoding of attribute
    values (CIP Volume 1, Appendix C), written at and read from a message
    cursor. `support64` stands for OPENER_SUPPORT_64BIT_DATATYPES. */
module AttributeCodec {
  import opened CipTypes
  import opened EndianConv
  import PathCodec

  /** The bytes of a STRING: a 2-byte length, the characters, and one 0 pad
      byte when the length field and the characters together are odd. */
  function StringEncoding(chars: seq<uint8>): (r: seq<uint8>)
    requires |chars| < 0x1_0000
    ensures |r| % 2 == 0 && |chars| + 2 <= |r| <= |chars| + 3
    ensures |r| == |chars| + 3 ==> r[|r| - 1] == 0
  {
    LittleEndian(|chars|, 2) + chars + (if (|chars| + 2) % 2 == 1 then [0] else [])
  }

  /** The bytes of the TCP/IP interface configuration block: five double words
      and the domain name as a STRING. */
  function NetworkConfigurationEncoding(v: CipValue): (r: seq<uint8>)
    requires v.NetworkConfiguration? && |v.domainName| < 0x1_0000
    ensures |r| == 20 + |StringEncoding(v.domainName)|
  {
    LittleEndian(v.ipAddress, 4) + LittleEndian(v.networkMask, 4) + LittleEndian(v.gateway, 4)
    + LittleEndian(v.nameServer, 4) + LittleEndian(v.nameServer2, 4) + StringEncoding(v.domainName)
  }

  /** The bytes of six 16-bit words, in order. */
  function SixWordsEncoding(w: seq<uint16>): (r: seq<uint8>)
    requires |w| == 6
    ensures |r| == 12
  {
    LittleEndian(w[0], 2) + LittleEndian(w[1], 2) + LittleEndian(w[2], 2)
    + LittleEndian(w[3], 2) + LittleEndian(w[4], 2) + LittleEndian(w[5], 2)
  }

  /** The types EncodeData writes nothing for: the time and date types,
      STRING2, STRINGN, ENGUNIT, the member list, unknown tags, and the
      8-byte family when 64-bit support is off. */
  predicate WritesNothing(t: CipType, support64: bool) {
    LayoutOf(t) == NoLayout || (LayoutOf(t) == EightBytes && !support64)
  }

  /** The bytes EncodeData writes for a value of type t; their count, type by type. */
  function Encoding(t: CipType, v: CipValue, support64: bool): (r: seq<uint8>)
    requires Fits(t, v)
    ensures match LayoutOf(t)
            case OneByte => |r| == 1
            case TwoBytes => |r| == 2
            case FourBytes => |r| == 4
            case EightBytes => |r| == if support64 then 8 else 0
            case StringLayout => |r| == if |v.chars| % 2 == 1 then |v.chars| + 3 else |v.chars| + 2
            case ShortStringLayout => |r| == |v.chars| + 1
            case PathLayout => |r| >= 4
            case RevisionPair => |r| == 2
            case NetworkBlock => |r| == 20 + |StringEncoding(v.domainName)|
            case SixBytes => |r| == 6
            case ByteArrayLayout => |r| == |v.bytes|
            case SixWords => |r| == 12
            case NoLayout => r == []
  {
    match LayoutOf(t)
    case OneByte => [v.b]
    case TwoBytes => LittleEndian(v.w, 2)
    case FourBytes => LittleEndian(v.d, 4)
    case EightBytes => if support64 then LittleEndian(v.l, 8) else []
    case StringLayout => StringEncoding(v.chars)
    case ShortStringLayout => [|v.chars|] + v.chars
    case PathLayout => PathCodec.EPathEncoding(v.path)
    case RevisionPair => [v.major, v.minor]
    case NetworkBlock => NetworkConfigurationEncoding(v)
    case SixBytes => v.bytes
    case ByteArrayLayout => v.bytes
    case SixWords => SixWordsEncoding(v.words)
    case NoLayout => []
  }

  /** What EncodeData returns: the bytes written, except for a path, where it
      is EncodeEPath's declared count. */
  function EncodedCount(t: CipType, v: CipValue, support64: bool): nat
    requires Fits(t, v)
  {
    if LayoutOf(t) == PathLayout then PathCodec.EPathCount(v.path) else |Encoding(t, v, support64)|
  }

  /** How far EncodeData moves the cursor: past the bytes written, except for
      the 6-byte array, whose copy leaves the cursor where it was. */
  function Advance(t: CipType, v: CipValue, support64: bool): nat
    requires Fits(t, v)
  {
    if LayoutOf(t) == SixBytes then 0 else |Encoding(t, v, support64)|
  }

  /** Writes a STRING at the cursor: length, characters, pad byte if odd. */
  method PutString(buf: array<uint8>, pos: nat, chars: seq<uint8>) returns (count: int, next: nat)
    requires |chars| < 0x1_0000
    requires pos + |StringEncoding(chars)| <= buf.Length
    modifies buf
    ensures buf[..] == Splice(old(buf[..]), pos, StringEncoding(chars))
    ensures count == |StringEncoding(chars)| && next == pos + count
  {
    next := AddIntToMessage(buf, pos, |chars|);
    next := PutBytes(buf, next, chars);
    SpliceTwice(old(buf[..]), pos, LittleEndian(|chars|, 2), chars);
    count := |chars| + 2;
    if count % 2 == 1 {
      next := PutByte(buf, next, 0);
      SpliceTwice(old(buf[..]), pos, LittleEndian(|chars|, 2) + chars, [0]);
      count := count + 1;
    } else {
      assert StringEncoding(chars) == LittleEndian(|chars|, 2) + chars;
    }
  }

  /** Writes a SHORT_STRING at the cursor: a 1-byte length, then the characters. */
  method PutShortString(buf: array<uint8>, pos: nat, chars: seq<uint8>) returns (count: int, next: nat)
    requires |chars| < 0x100
    requires pos + 1 + |chars| <= buf.Length
    modifies buf
    ensures buf[..] == Splice(old(buf[..]), pos, [|chars|] + chars)
    ensures count == |chars| + 1 && next == pos + count
  {
    next := PutByte(buf, pos, |chars|);
    next := PutBytes(buf, next, chars);
    SpliceTwice(old(buf[..]), pos, [|chars|], chars);
    count := |chars| + 1;
  }

  /** Writes the TCP/IP interface configuration block, summing the counts of
      the five double words and the domain-name STRING. */
  method PutNetworkConfiguration(buf: array<uint8>, pos: nat, v: CipValue) returns (count: int, next: nat)
    requires v.NetworkConfiguration? && |v.domainName| < 0x1_0000
    requires pos + |NetworkConfigurationEncoding(v)| <= buf.Length
    modifies buf
    ensures buf[..] == Splice(old(buf[..]), pos, NetworkConfigurationEncoding(v))
    ensures count == |NetworkConfigurationEncoding(v)| && next == pos + count
  {
    next := AddDintToMessage(buf, pos, v.ipAddress);
    ghost var written := LittleEndian(v.ipAddress, 4);
    count := 4;
    next := AddDintToMessage(buf, next, v.networkMask);
    SpliceTwice(old(buf[..]), pos, written, LittleEndian(v.networkMask, 4));
    written, count := written + LittleEndian(v.networkMask, 4), count + 4;
    next := AddDintToMessage(buf, next, v.gateway);
    SpliceTwice(old(buf[..]), pos, written, LittleEndian(v.gateway, 4));
    written, count := written + LittleEndian(v.gateway, 4), count + 4;
    next := AddDintToMessage(buf, next, v.nameServer);
    SpliceTwice(old(buf[..]), pos, written, LittleEndian(v.nameServer, 4));
    written, count := written + LittleEndian(v.nameServer, 4), count + 4;
    next := AddDintToMessage(buf, next, v.nameServer2);
    SpliceTwice(old(buf[..]), pos, written, LittleEndian(v.nameServer2, 4));
    written, count := written + LittleEndian(v.nameServer2, 4), count + 4;
    var c;
    c, next := PutString(buf, next, v.domainName);
    SpliceTwice(old(buf[..]), pos, written, StringEncoding(v.domainName));
    count := count + c;
  }

  /** Writes six 16-bit words, one AddIntToMessage after another. */
  method PutSixWords(buf: array<uint8>, pos: nat, w: seq<uint16>) returns (count: int, next: nat)
    requires |w| == 6 && pos + 12 <= buf.Length
    modifies buf
    ensures buf[..] == Splice(old(buf[..]), pos, SixWordsEncoding(w))
    ensures count == 12 && next == pos + 12
  {
    next := AddIntToMessage(buf, pos, w[0]);
    ghost var written := LittleEndian(w[0], 2);
    next := AddIntToMessage(buf, next, w[1]);
    SpliceTwice(old(buf[..]), pos, written, LittleEndian(w[1], 2));
    written := written + LittleEndian(w[1], 2);
    next := AddIntToMessage(buf, next, w[2]);
    SpliceTwice(old(buf[..]), pos, written, LittleEndian(w[2], 2));
    written := written + LittleEndian(w[2], 2);
    next := AddIntToMessage(buf, next, w[3]);
    SpliceTwice(old(buf[..]), pos, written, LittleEndian(w[3], 2));
    written := written + LittleEndian(w[3], 2);
    next := AddIntToMessage(buf, next, w[4]);
    SpliceTwice(old(buf[..]), pos, written, LittleEndian(w[4], 2));
    written := written + LittleEndian(w[4], 2);
    next := AddIntToMessage(buf, next, w[5]);
    SpliceTwice(old(buf[..]), pos, written, LittleEndian(w[5], 2));
    count := 12;
  }

  /** EncodeData: writes the value at the cursor as its type says, returns
      the count the source returns and moves the cursor as the source does. */
  method EncodeData(t: CipType, v: CipValue, support64: bool, buf: array<uint8>, pos: nat)
    returns (count: int, next: nat)
    requires Fits(t, v)
    requires pos + |Encoding(t, v, support64)| <= buf.Length
    modifies buf
    ensures buf[..] == Splice(old(buf[..]), pos, Encoding(t, v, support64))
    ensures count == EncodedCount(t, v, support64)
    ensures next == pos + Advance(t, v, support64)
  {
    match LayoutOf(t)
    case OneByte | TwoBytes | FourBytes | EightBytes =>
      count, next := EncodeInteger(t, v, support64, buf, pos);
    case StringLayout | ShortStringLayout | PathLayout | RevisionPair | NetworkBlock =>
      count, next := EncodeStructured(t, v, support64, buf, pos);
    case SixBytes | ByteArrayLayout | SixWords | NoLayout =>
      count, next := EncodeRaw(t, v, support64, buf, pos);
  }

  /** EncodeData's cases for the fixed-width integer families. */
  method EncodeInteger(t: CipType, v: CipValue, support64: bool, buf: array<uint8>, pos: nat)
    returns (count: int, next: nat)
    requires Fits(t, v)
    requires pos + |Encoding(t, v, support64)| <= buf.Length
    modifies buf
    ensures buf[..] == Splice(old(buf[..]), pos, Encoding(t, v, support64))
    ensures count == EncodedCount(t, v, support64)
    ensures next == pos + Advance(t, v, support64)
    requires LayoutOf(t).OneByte? || LayoutOf(t).TwoBytes? || LayoutOf(t).FourBytes? || LayoutOf(t).EightBytes?
  {
    match LayoutOf(t)
    case OneByte =>
      next := PutByte(buf, pos, v.b);
      count := 1;
    case TwoBytes =>
      next := AddIntToMessage(buf, pos, v.w);
      count := 2;
    case FourBytes =>
      next := AddDintToMessage(buf, pos, v.d);
      count := 4;
    case EightBytes =>
      if support64 {
        next := AddLintToMessage(buf, pos, v.l);
        count := 8;
      } else {
        count, next := 0, pos;
      }
  }

  /** EncodeData's cases for strings, paths, revisions and the network block. */
  method EncodeStructured(t: CipType, v: CipValue, support64: bool, buf: array<uint8>, pos: nat)
    returns (count: int, next: nat)
    requires Fits(t, v)
    requires pos + |Encoding(t, v, support64)| <= buf.Length
    modifies buf
    ensures buf[..] == Splice(old(buf[..]), pos, Encoding(t, v, support64))
    ensures count == EncodedCount(t, v, support64)
    ensures next == pos + Advance(t, v, support64)
    requires LayoutOf(t).StringLayout? || LayoutOf(t).ShortStringLayout? || LayoutOf(t).PathLayout?
      || LayoutOf(t).RevisionPair? || LayoutOf(t).NetworkBlock?
  {
    match LayoutOf(t)
    case StringLayout =>
      count, next := PutString(buf, pos, v.chars);
    case ShortStringLayout =>
      count, next := PutShortString(buf, pos, v.chars);
    case PathLayout =>
      count, next := PathCodec.EncodeEPath(v.path, buf, pos);
    case RevisionPair =>
      next := PutByte(buf, pos, v.major);
      next := PutByte(buf, next, v.minor);
      SpliceTwice(old(buf[..]), pos, [v.major], [v.minor]);
      assert [v.major] + [v.minor] == [v.major, v.minor];
      count := 2;
    case NetworkBlock =>
      count, next := PutNetworkConfiguration(buf, pos, v);
  }

  /** EncodeData's cases that copy bytes or words as they are. */
  method EncodeRaw(t: CipType, v: CipValue, support64: bool, buf: array<uint8>, pos: nat)
    returns (count: int, next: nat)
    requires Fits(t, v)
    requires pos + |Encoding(t, v, support64)| <= buf.Length
    modifies buf
    ensures buf[..] == Splice(old(buf[..]), pos, Encoding(t, v, support64))
    ensures count == EncodedCount(t, v, support64)
    ensures next == pos + Advance(t, v, support64)
    requires LayoutOf(t).SixBytes? || LayoutOf(t).ByteArrayLayout? || LayoutOf(t).SixWords? || LayoutOf(t).NoLayout?
  {
    match LayoutOf(t)
    case SixBytes =>
      // memcpy without moving the cursor
      var _ := PutBytes(buf, pos, v.bytes);
      count, next := 6, pos;
    case ByteArrayLayout =>
      next := PutBytes(buf, pos, v.bytes);
      count := |v.bytes|;
    case SixWords =>
      count, next := PutSixWords(buf, pos, v.words);
    case NoLayout =>
      count, next := 0, pos;
  }

  /** What DecodeData produces: the value and the count it returns, -1 for a
      type it does not decode, or (where the source would read past the
      message) input that ends too early. */
  datatype Decoded = Decoded(value: CipValue, consumed: nat) | Unsupported | Truncated

  /** The types DecodeData has a case for: the 1-, 2-, 4- and 8-byte integer
      families without REAL and LREAL, STRING and SHORT_STRING. */
  predicate Decodable(t: CipType, support64: bool) {
    match LayoutOf(t)
    case OneByte | TwoBytes | StringLayout | ShortStringLayout => true
    case FourBytes => t != CipReal
    case EightBytes => support64 && t != CipLreal
    case _ => false
  }

  /** A 1-byte integer at the start of s. */
  function ByteDecoding(s: seq<uint8>): (r: Decoded)
    ensures r.Decoded? ==> r.value.Byte8? && r.consumed == 1 <= |s|
    ensures r.Truncated? <==> |s| < 1
  {
    if |s| < 1 then Truncated else Decoded(Byte8(s[0]), 1)
  }

  /** A 16-bit little-endian integer at the start of s. */
  function WordDecoding(s: seq<uint8>): (r: Decoded)
    ensures r.Decoded? ==> r.value.Word16? && r.consumed == 2 <= |s|
    ensures r.Truncated? <==> |s| < 2
  {
    if |s| < 2 then Truncated
    else assert Pow256(2) == 0x1_0000; Decoded(Word16(FromLittleEndian(s[..2])), 2)
  }

  /** A 32-bit little-endian integer at the start of s. */
  function DwordDecoding(s: seq<uint8>): (r: Decoded)
    ensures r.Decoded? ==> r.value.Word32? && r.consumed == 4 <= |s|
    ensures r.Truncated? <==> |s| < 4
  {
    if |s| < 4 then Truncated
    else assert Pow256(4) == 0x1_0000_0000; Decoded(Word32(FromLittleEndian(s[..4])), 4)
  }

  /** A 64-bit little-endian integer at the start of s. */
  function LwordDecoding(s: seq<uint8>): (r: Decoded)
    ensures r.Decoded? ==> r.value.Word64? && r.consumed == 8 <= |s|
    ensures r.Truncated? <==> |s| < 8
  {
    if |s| < 8 then Truncated
    else assert Pow256(8) == 0x1_0000_0000_0000_0000; Decoded(Word64(FromLittleEndian(s[..8])), 8)
  }

  /** A STRING at the start of s: the count includes the pad byte after an
      odd length. The pad is skipped without being read, so it may lie one
      past the end of s. */
  function StringDecoding(s: seq<uint8>): (r: Decoded)
    ensures r.Decoded? ==> r.value.Text? && |r.value.chars| < 0x1_0000 && |r.value.chars| + 2 <= |s|
                           && r.consumed % 2 == 0 && |r.value.chars| + 2 <= r.consumed <= |r.value.chars| + 3
    ensures r.Truncated? <==> |s| < 2 || |s| < 2 + FromLittleEndian(s[..2])
    ensures !r.Unsupported?
  {
    if |s| < 2 then Truncated
    else
      var len := FromLittleEndian(s[..2]);
      var n := if (len + 2) % 2 == 1 then len + 3 else len + 2;
      if |s| < len + 2 then Truncated
      else assert Pow256(2) == 0x1_0000; Decoded(Text(s[2..2 + len]), n)
  }

  /** A SHORT_STRING at the start of s. */
  function ShortStringDecoding(s: seq<uint8>): (r: Decoded)
    ensures r.Decoded? ==> r.value.Text? && |r.value.chars| < 0x100 && r.consumed == |r.value.chars| + 1 <= |s|
    ensures !r.Unsupported?
  {
    if |s| < 1 then Truncated
    else
      var len: nat := s[0];
      if |s| < 1 + len then Truncated else Decoded(Text(s[1..1 + len]), len + 1)
  }

  /** The value DecodeData reads from the bytes s of a message. */
  function Decoding(t: CipType, s: seq<uint8>, support64: bool): (r: Decoded)
    ensures r.Unsupported? <==> !Decodable(t, support64)
    ensures r.Decoded? ==> Fits(t, r.value) && 0 < r.consumed
                           && (r.consumed <= |s| || (EndsInPad(t, r.value) && r.consumed == |s| + 1))
  {
    if !Decodable(t, support64) then Unsupported
    else match LayoutOf(t)
      case OneByte => ByteDecoding(s)
      case TwoBytes => WordDecoding(s)
      case FourBytes => DwordDecoding(s)
      case EightBytes => LwordDecoding(s)
      case StringLayout => StringDecoding(s)
      case ShortStringLayout => ShortStringDecoding(s)
  }

  /** DecodeData with every read bounded by the buffer: the value and count
      that Decoding gives; the cursor moves past the bytes consumed, and stays
      where it was when nothing was decoded. */
  method DecodeData(t: CipType, support64: bool, buf: array<uint8>, pos: nat) returns (r: Decoded, next: nat)
    requires pos <= buf.Length
    ensures r == Decoding(t, buf[pos..], support64)
    ensures next == if r.Decoded? then pos + r.consumed else pos
  {
    r, next := Unsupported, pos;
    match LayoutOf(t)
    case OneByte =>
      r, next := GetFixed(buf, pos, 1);
    case TwoBytes =>
      r, next := GetFixed(buf, pos, 2);
    case FourBytes =>
      if t != CipReal {
        r, next := GetFixed(buf, pos, 4);
      }
    case EightBytes =>
      if support64 && t != CipLreal {
        r, next := GetFixed(buf, pos, 8);
      }
    case StringLayout =>
      r, next := GetString(buf, pos);
    case ShortStringLayout =>
      r, next := GetShortString(buf, pos);
    case _ =>
  }

  /** The integer of the given width at the start of s. */
  function FixedDecoding(s: seq<uint8>, width: nat): Decoded
    requires width in {1, 2, 4, 8}
  {
    match width
    case 1 => ByteDecoding(s)
    case 2 => WordDecoding(s)
    case 4 => DwordDecoding(s)
    case 8 => LwordDecoding(s)
  }

  /** The integer cases of DecodeData: one byte read directly, wider ones
      through GetIntFromMessage, GetDintFromMessage and GetLintFromMessage. */
  method GetFixed(buf: array<uint8>, pos: nat, width: nat) returns (r: Decoded, next: nat)
    requires pos <= buf.Length && width in {1, 2, 4, 8}
    ensures r == FixedDecoding(buf[pos..], width)
    ensures next == if r.Decoded? then pos + r.consumed else pos
  {
    ghost var s := buf[pos..];
    if pos + width > buf.Length {
      return Truncated, pos;
    }
    assert s[..width] == buf[pos..pos + width];
    if width == 1 {
      r, next := Decoded(Byte8(buf[pos]), 1), pos + 1;
    } else if width == 2 {
      var w;
      w, next := GetIntFromMessage(buf, pos);
      r := Decoded(Word16(w), 2);
    } else if width == 4 {
      var d;
      d, next := GetDintFromMessage(buf, pos);
      r := Decoded(Word32(d), 4);
    } else {
      var l;
      l, next := GetLintFromMessage(buf, pos);
      r := Decoded(Word64(l), 8);
    }
  }

  /** The STRING case of DecodeData: a 2-byte length, that many characters,
      and a pad byte skipped when the two together are odd. */
  method GetString(buf: array<uint8>, pos: nat) returns (r: Decoded, next: nat)
    requires pos <= buf.Length
    ensures r == StringDecoding(buf[pos..])
    ensures next == if r.Decoded? then pos + r.consumed else pos
  {
    ghost var s := buf[pos..];
    if pos + 2 > buf.Length {
      return Truncated, pos;
    }
    var length;
    length, next := GetIntFromMessage(buf, pos);
    assert s[..2] == buf[pos..pos + 2];
    var len: int := length;
    var count: int := len + 2;
    if pos + count > buf.Length {
      return Truncated, pos;
    }
    var chars;
    chars, next := GetBytes(buf, next, len);
    assert buf[pos + 2..pos + 2 + len] == s[2..2 + len] by {
      var read, field := buf[pos + 2..pos + 2 + len], s[2..2 + len];
      assert forall k :: 0 <= k < len ==> read[k] == field[k];
    }
    if count % 2 == 1 {
      next := next + 1;
      count := count + 1;
    }
    r := Decoded(Text(chars), count);
  }

  /** The SHORT_STRING case of DecodeData: a 1-byte length, then the characters. */
  method GetShortString(buf: array<uint8>, pos: nat) returns (r: Decoded, next: nat)
    requires pos <= buf.Length
    ensures r == ShortStringDecoding(buf[pos..])
    ensures next == if r.Decoded? then pos + r.consumed else pos
  {
    ghost var s := buf[pos..];
    if pos + 1 > buf.Length {
      return Truncated, pos;
    }
    var len: nat := buf[pos];
    if pos + 1 + len > buf.Length {
      return Truncated, pos;
    }
    var chars;
    chars, next := GetBytes(buf, pos + 1, len);
    assert chars == s[1..1 + len] by {
      var field := s[1..1 + len];
      assert forall k :: 0 <= k < len ==> chars[k] == field[k];
    }
    r := Decoded(Text(chars), len + 1);
  }

  /** A fixed-width integer reads back from the front of its encoding. */
  lemma FixedWidthRoundTrip(x: nat, width: nat, rest: seq<uint8>)
    requires x < Pow256(width)
    ensures (LittleEndian(x, width) + rest)[..width] == LittleEndian(x, width)
    ensures FromLittleEndian((LittleEndian(x, width) + rest)[..width]) == x
  {
    assert (LittleEndian(x, width) + rest)[..width] == LittleEndian(x, width);
    LittleEndianRoundTrip(x, width);
  }

  /** A STRING reads back from the front of its encoding, pad byte included. */
  lemma StringRoundTrip(chars: seq<uint8>, rest: seq<uint8>)
    requires |chars| < 0x1_0000
    ensures StringDecoding(StringEncoding(chars) + rest) == Decoded(Text(chars), |StringEncoding(chars)|)
  {
    var pad: seq<uint8> := if (|chars| + 2) % 2 == 1 then [0] else [];
    var s := StringEncoding(chars) + rest;
    assert s == LittleEndian(|chars|, 2) + (chars + pad + rest);
    assert Pow256(2) == 0x1_0000;
    FixedWidthRoundTrip(|chars|, 2, chars + pad + rest);
    assert s[2..2 + |chars|] == chars;
  }

  /** Round trip: for every type DecodeData supports, decoding what
      EncodeData wrote gives the value back and consumes exactly the bytes
      written, whatever follows them. */
  lemma DecodeEncodeRoundTrip(t: CipType, v: CipValue, support64: bool, rest: seq<uint8>)
    requires Decodable(t, support64) && Fits(t, v)
    ensures Decoding(t, Encoding(t, v, support64) + rest, support64) == Decoded(v, |Encoding(t, v, support64)|)
  {
    match LayoutOf(t)
    case OneByte =>
      assert ([v.b] + rest)[0] == v.b;
    case TwoBytes =>
      assert Pow256(2) == 0x1_0000;
      FixedWidthRoundTrip(v.w, 2, rest);
    case FourBytes =>
      assert Pow256(4) == 0x1_0000_0000;
      FixedWidthRoundTrip(v.d, 4, rest);
    case EightBytes =>
      assert Pow256(8) == 0x1_0000_0000_0000_0000;
      FixedWidthRoundTrip(v.l, 8, rest);
    case StringLayout =>
      StringRoundTrip(v.chars, rest);
    case ShortStringLayout =>
      var s := [|v.chars|] + v.chars + rest;
      assert s[1..1 + |v.chars|] == v.chars;
  }

  /** Whether the encoding of v ends in a STRING pad byte. */
  predicate EndsInPad(t: CipType, v: CipValue) {
    LayoutOf(t) == StringLayout && v.Text? && |v.chars| % 2 == 1
  }

  /** The converse round trip: whatever DecodeData accepts, EncodeData writes
      back byte for byte, except that the pad byte of a STRING, which the
      decoder skips unread, is written as 0. */
  lemma EncodeDecodeRoundTrip(t: CipType, s: seq<uint8>, support64: bool)
    requires Decoding(t, s, support64).Decoded?
    ensures var d := Decoding(t, s, support64);
            var e := Encoding(t, d.value, support64);
            && |e| == d.consumed
            && (EndsInPad(t, d.value) ==> e == s[..d.consumed - 1] + [0])
            && (!EndsInPad(t, d.value) ==> e == s[..d.consumed])
  {
    var d := Decoding(t, s, support64);
    match LayoutOf(t)
    case OneByte =>
    case TwoBytes =>
      FromLittleEndianRoundTrip(s[..2]);
    case FourBytes =>
      FromLittleEndianRoundTrip(s[..4]);
    case EightBytes =>
      FromLittleEndianRoundTrip(s[..8]);
    case StringLayout =>
      StringReadBack(s);
    case ShortStringLayout =>
      assert s[..1 + s[0]] == [s[0]] + s[1..1 + s[0]];
  }

  /** A STRING the decoder accepts is re-encoded from its length field and
      characters, with a 0 in place of the pad byte. */
  lemma StringReadBack(s: seq<uint8>)
    requires StringDecoding(s).Decoded?
    ensures var d := StringDecoding(s);
            var e := StringEncoding(d.value.chars);
            && |e| == d.consumed
            && (|d.value.chars| % 2 == 1 ==> e == s[..d.consumed - 1] + [0])
            && (|d.value.chars| % 2 == 0 ==> e == s[..d.consumed])
  {
    var chars := StringDecoding(s).value.chars;
    FromLittleEndianRoundTrip(s[..2]);
    assert s[..2 + |chars|] == s[..2] + s[2..2 + |chars|];
  }

  /** An odd STRING whose pad byte would lie past the end of the input still
      decodes: the pad is skipped unread and counted. */
  lemma StringPadPastEnd()
    ensures StringDecoding([1, 0, 0x61]) == Decoded(Text([0x61]), 4)
  {
    assert [1, 0, 0x61][..2] == [1, 0];
    assert FromLittleEndian([1, 0]) == 1;
  }

  /** REAL and LREAL attributes are encoded, as a double and a long word, but
      DecodeData has no case for them: a value read out cannot be written back. */
  lemma RealsAreEncodedButNotDecoded(d: uint32, l: uint64, s: seq<uint8>)
    ensures |Encoding(CipReal, Word32(d), true)| == 4 && Decoding(CipReal, s, true) == Unsupported
    ensures |Encoding(CipLreal, Word64(l), true)| == 8 && Decoding(CipLreal, s, true) == Unsupported
  {
  }

  /** Without 64-bit support the 8-byte types are neither written nor read. */
  lemma NoSixtyFourBitSupport(t: CipType, v: CipValue, s: seq<uint8>)
    requires LayoutOf(t) == EightBytes && Fits(t, v)
    ensures Encoding(t, v, false) == [] && EncodedCount(t, v, false) == 0
    ensures Decoding(t, s, false) == Unsupported
  {
  }

  /** What EncodeData returns and how far it moves the cursor, against the
      bytes it writes: they agree except for the 6-byte array, which is
      written but leaves the cursor behind, and a path whose declared size
      differs from its segments. */
  lemma CountAndCursorAgainstBytesWritten(t: CipType, v: CipValue, support64: bool)
    requires Fits(t, v)
    ensures LayoutOf(t) != PathLayout ==> EncodedCount(t, v, support64) == |Encoding(t, v, support64)|
    ensures LayoutOf(t) == PathLayout && PathCodec.BudgetExact(v.path) ==> EncodedCount(t, v, support64) == |Encoding(t, v, support64)|
    ensures LayoutOf(t) != SixBytes ==> Advance(t, v, support64) == |Encoding(t, v, support64)|
    ensures LayoutOf(t) == SixBytes ==> Advance(t, v, support64) == 0 && |Encoding(t, v, support64)| == 6
  {
    if LayoutOf(t) == PathLayout && PathCodec.BudgetExact(v.path) {
      PathCodec.EPathRoundTrip(v.path, []);
    }
  }
}
