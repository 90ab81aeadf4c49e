/** The logical-segment EPATH codec: EncodeEPath writes a path as a word-count
    prefix and class, instance and attribute segments; DecodePaddedEPath parses
    the padded path of a request. */
module PathCodec {
  import opened CipTypes
  import opened EndianConv

  // Segment tags: logical segment 0x20, plus 0x00 class / 0x04 instance /
  // 0x10 attribute, plus 0x00 for an 8-bit or 0x01 for a 16-bit value.
  const ClassIdSegment8: uint8 := 0x20
  const ClassIdSegment16: uint8 := 0x21
  const InstanceIdSegment8: uint8 := 0x24
  const InstanceIdSegment16: uint8 := 0x25
  const AttributeIdSegment8: uint8 := 0x30
  const AttributeIdSegment16: uint8 := 0x31

  /** The segment-type bits that mark a reserved segment. */
  const ReservedSegmentType: bv8 := 0xE0

  /** `x -= k` on an unsigned int: wraps around below zero. */
  function Minus32(x: uint32, k: nat): uint32 {
    (x - k) % 0x1_0000_0000
  }

  /** Words a segment for this id takes: 1 in the 8-bit form, 2 in the padded 16-bit form. */
  function SegmentWords(id: uint16): nat {
    if id < 256 then 1 else 2
  }

  /** One logical segment: the 8-bit tag and value for ids below 256, else the
      16-bit tag, a pad byte and the value little-endian. */
  function Segment(tag8: uint8, id: uint16): (r: seq<uint8>)
    requires tag8 < 0xFF
    ensures |r| == 2 * SegmentWords(id)
  {
    if id < 256 then [tag8, id] else [tag8 + 1, 0] + LittleEndian(id, 2)
  }

  /** The word budget left after the class segment. */
  function BudgetAfterClass(p: EPath): uint32 {
    Minus32(p.pathSize, SegmentWords(p.classId))
  }

  /** The word budget left after the instance segment. */
  function BudgetAfterInstance(p: EPath): uint32 {
    Minus32(BudgetAfterClass(p), SegmentWords(p.instanceNumber))
  }

  /** The segments EncodeEPath writes: the class segment, and the instance
      and attribute segments while the word budget is positive. */
  function EPathSegments(p: EPath): seq<uint8>
  {
    Segment(ClassIdSegment8, p.classId)
    + (if 0 < BudgetAfterClass(p) then
         Segment(InstanceIdSegment8, p.instanceNumber)
         + (if 0 < BudgetAfterInstance(p) then Segment(AttributeIdSegment8, p.attributeNumber) else [])
       else [])
  }

  /** The bytes EncodeEPath writes: a 2-byte size, then the segments. */
  function EPathEncoding(p: EPath): seq<uint8>
  {
    LittleEndian(p.pathSize, 2) + EPathSegments(p)
  }

  /** What EncodeEPath returns: the size prefix plus the declared words. */
  function EPathCount(p: EPath): nat {
    2 + p.pathSize * 2
  }

  /** Writes one segment at the cursor. */
  method PutSegment(buf: array<uint8>, pos: nat, tag8: uint8, id: uint16) returns (next: nat)
    requires tag8 < 0xFF
    requires pos + 2 * SegmentWords(id) <= buf.Length
    modifies buf
    ensures buf[..] == Splice(old(buf[..]), pos, Segment(tag8, id))
    ensures next == pos + 2 * SegmentWords(id)
  {
    if id < 256 {
      next := PutByte(buf, pos, tag8);
      next := PutByte(buf, next, id);
      SpliceTwice(old(buf[..]), pos, [tag8], [id]);
      assert [tag8] + [id] == Segment(tag8, id);
    } else {
      next := PutByte(buf, pos, tag8 + 1);
      next := PutByte(buf, next, 0);
      SpliceTwice(old(buf[..]), pos, [tag8 + 1], [0]);
      assert [tag8 + 1] + [0] == [tag8 + 1, 0];
      next := AddIntToMessage(buf, next, id);
      SpliceTwice(old(buf[..]), pos, [tag8 + 1, 0], LittleEndian(id, 2));
      assert [tag8 + 1, 0] + LittleEndian(id, 2) == Segment(tag8, id);
    }
  }

  /** The encoding as the writes EncodeEPath makes, one after the other. */
  lemma EPathEncodingLayout(p: EPath)
    ensures var size := LittleEndian(p.pathSize, 2);
            var segC := Segment(ClassIdSegment8, p.classId);
            var segI := Segment(InstanceIdSegment8, p.instanceNumber);
            var segA := Segment(AttributeIdSegment8, p.attributeNumber);
            EPathEncoding(p) == if 0 < BudgetAfterClass(p) then
                                  if 0 < BudgetAfterInstance(p) then size + segC + segI + segA
                                  else size + segC + segI
                                else size + segC
  {
    var size := LittleEndian(p.pathSize, 2);
    var segC := Segment(ClassIdSegment8, p.classId);
    var segI := Segment(InstanceIdSegment8, p.instanceNumber);
    var segA := Segment(AttributeIdSegment8, p.attributeNumber);
    if 0 < BudgetAfterClass(p) {
      if 0 < BudgetAfterInstance(p) {
        assert size + segC + segI + segA == size + (segC + (segI + segA));
      } else {
        assert segI + [] == segI;
        assert size + segC + segI == size + (segC + segI);
      }
    } else {
      assert segC + [] == segC;
    }
  }

  /** EncodeEPath: writes EPathEncoding(p) at the cursor, which advances past
      it, and returns 2 + 2 * path_size whatever was written. */
  method EncodeEPath(p: EPath, buf: array<uint8>, pos: nat) returns (count: int, next: nat)
    requires pos + |EPathEncoding(p)| <= buf.Length
    modifies buf
    ensures buf[..] == Splice(old(buf[..]), pos, EPathEncoding(p))
    ensures next == pos + |EPathEncoding(p)|
    ensures count == EPathCount(p)
  {
    EPathEncodingLayout(p);
    ghost var written := LittleEndian(p.pathSize, 2);
    var length: uint32 := p.pathSize;
    next := AddIntToMessage(buf, pos, p.pathSize);
    next := PutSegment(buf, next, ClassIdSegment8, p.classId);
    SpliceTwice(old(buf[..]), pos, written, Segment(ClassIdSegment8, p.classId));
    written := written + Segment(ClassIdSegment8, p.classId);
    length := Minus32(length, SegmentWords(p.classId));
    if 0 < length {
      next := PutSegment(buf, next, InstanceIdSegment8, p.instanceNumber);
      SpliceTwice(old(buf[..]), pos, written, Segment(InstanceIdSegment8, p.instanceNumber));
      written := written + Segment(InstanceIdSegment8, p.instanceNumber);
      length := Minus32(length, SegmentWords(p.instanceNumber));
      if 0 < length {
        next := PutSegment(buf, next, AttributeIdSegment8, p.attributeNumber);
        SpliceTwice(old(buf[..]), pos, written, Segment(AttributeIdSegment8, p.attributeNumber));
        written := written + Segment(AttributeIdSegment8, p.attributeNumber);
        length := Minus32(length, SegmentWords(p.attributeNumber));
      }
    }
    count := 2 + p.pathSize * 2;
  }

  /** Result of parsing a path: the path and the count DecodePaddedEPath
      returns (1 + 2 * words consumed), a segment it refuses (the source's
      kEipStatusError), or input that ends inside the path. */
  datatype PathDecoding = Parsed(path: EPath, count: nat) | Malformed | Truncated

  /** A segment byte whose three type bits are all set. */
  predicate IsReservedSegment(tag: uint8) {
    (tag as bv8) & ReservedSegmentType == ReservedSegmentType
  }

  /** A segment tag of the 16-bit form, which takes two words. */
  predicate IsWideTag(tag: uint8) {
    tag == ClassIdSegment16 || tag == InstanceIdSegment16 || tag == AttributeIdSegment16
  }

  /** One step of the parsing loop: the segment at `runner` either moves the
      runner past itself, counting its words and recording its id, or stops
      the parse. */
  datatype Step = Advance(runner: nat, words: nat, path: EPath) | Stop(failure: PathDecoding)

  /** The segment at index `runner` of s. */
  function SegmentStep(s: seq<uint8>, runner: nat, p: EPath): (r: Step)
    ensures r.Advance? ==> (r.words == 1 || r.words == 2) && r.runner == runner + 2 * r.words
                           && r.runner <= |s| && r.path.pathSize == p.pathSize
                           && (r.words == 2 <==> IsWideTag(s[runner]))
    ensures r.Stop? ==> !r.failure.Parsed?
  {
    if runner >= |s| then Stop(Truncated)
    else
      var tag := s[runner];
      if IsReservedSegment(tag) then Stop(Malformed)
      else if tag == ClassIdSegment8 then
        if runner + 2 > |s| then Stop(Truncated)
        else Advance(runner + 2, 1, p.(classId := s[runner + 1]))
      else if tag == ClassIdSegment16 then
        if runner + 4 > |s| then Stop(Truncated)
        else Advance(runner + 4, 2, p.(classId := FromLittleEndian(s[runner + 2..runner + 4])))
      else if tag == InstanceIdSegment8 then
        if runner + 2 > |s| then Stop(Truncated)
        else Advance(runner + 2, 1, p.(instanceNumber := s[runner + 1]))
      else if tag == InstanceIdSegment16 then
        if runner + 4 > |s| then Stop(Truncated)
        else Advance(runner + 4, 2, p.(instanceNumber := FromLittleEndian(s[runner + 2..runner + 4])))
      else if tag == AttributeIdSegment8 then
        if runner + 2 > |s| then Stop(Truncated)
        else Advance(runner + 2, 1, p.(attributeNumber := s[runner + 1]))
      else if tag == AttributeIdSegment16 then
        if runner + 4 > |s| then Stop(Truncated)
        else Advance(runner + 4, 2, p.(attributeNumber := FromLittleEndian(s[runner + 2..runner + 4])))
      else Stop(Malformed)
  }

  /** The parsing loop from the state (runner, decoded, p) on, where s starts
      at the size byte, runner indexes s, and decoded counts words. */
  function DecodeSegments(s: seq<uint8>, runner: nat, decoded: nat, p: EPath): PathDecoding
    decreases p.pathSize - decoded
  {
    if decoded >= p.pathSize then Parsed(p, decoded * 2 + 1)
    else
      match SegmentStep(s, runner, p)
      case Stop(failure) => failure
      case Advance(next, words, q) => DecodeSegments(s, next, decoded + words, q)
  }

  /** The path the bytes s encode: a 1-byte word count, then that many words of
      segments; ids not present stay 0. */
  function DecodeEPath(s: seq<uint8>): PathDecoding {
    if |s| == 0 then Truncated else DecodeSegments(s, 1, 0, EPath(s[0], 0, 0, 0))
  }

  /** Reads the segment at `runner` of the path that starts at `pos`. */
  method ReadSegment(buf: array<uint8>, pos: nat, runner: nat, path: EPath) returns (step: Step)
    requires pos <= buf.Length && pos <= runner
    ensures step == SegmentStep(buf[pos..], runner - pos, path)
  {
    ghost var s := buf[pos..];
    if runner >= buf.Length {
      return Stop(Truncated);
    }
    var tag := buf[runner];
    if IsReservedSegment(tag) {
      return Stop(Malformed);
    }
    var wide := IsWideTag(tag);
    var narrow := tag == ClassIdSegment8 || tag == InstanceIdSegment8 || tag == AttributeIdSegment8;
    if !wide && !narrow {
      return Stop(Malformed);
    }
    if runner + (if wide then 4 else 2) > buf.Length {
      return Stop(Truncated);
    }
    var id: uint16;
    var next: nat;
    if wide {
      assert s[runner - pos + 2..runner - pos + 4] == buf[runner + 2..runner + 4];
      id, next := GetIntFromMessage(buf, runner + 2);
    } else {
      id, next := buf[runner + 1], runner + 2;
    }
    var q := if tag == ClassIdSegment8 || tag == ClassIdSegment16 then path.(classId := id)
             else if tag == InstanceIdSegment8 || tag == InstanceIdSegment16 then path.(instanceNumber := id)
             else path.(attributeNumber := id);
    step := Advance(next - pos, if wide then 2 else 1, q);
  }

  /** DecodePaddedEPath, with every read bounded by the buffer: on success the
      cursor moves past exactly the bytes the count says; on failure it stays. */
  method DecodePaddedEPath(buf: array<uint8>, pos: nat) returns (r: PathDecoding, next: nat)
    requires pos <= buf.Length
    ensures r == DecodeEPath(buf[pos..])
    ensures next == if r.Parsed? then pos + r.count else pos
  {
    ghost var s := buf[pos..];
    if pos >= buf.Length {
      return Truncated, pos;
    }
    var runner := pos;
    var path := EPath(buf[runner], 0, 0, 0);
    runner := runner + 1;
    var decoded := 0;
    while decoded < path.pathSize
      invariant runner == pos + 1 + 2 * decoded
      invariant DecodeSegments(s, runner - pos, decoded, path) == DecodeEPath(s)
      decreases path.pathSize - decoded
    {
      var step := ReadSegment(buf, pos, runner, path);
      match step
      case Stop(failure) =>
        return failure, pos;
      case Advance(after, words, q) =>
        runner, decoded, path := pos + after, decoded + words, q;
    }
    return Parsed(path, decoded * 2 + 1), runner;
  }

  /** A path whose declared size is exactly the words of the segments the
      encoder emits for it, with the ids it leaves out equal to 0. */
  predicate BudgetExact(p: EPath) {
    var c := SegmentWords(p.classId);
    var i := SegmentWords(p.instanceNumber);
    var a := SegmentWords(p.attributeNumber);
    (p.pathSize == c && p.instanceNumber == 0 && p.attributeNumber == 0)
    || (p.pathSize == c + i && p.attributeNumber == 0)
    || p.pathSize == c + i + a
  }

  /** The layout DecodePaddedEPath reads: the low byte of EncodeEPath's size
      prefix followed directly by the segments. */
  function WithOneByteSize(e: seq<uint8>): seq<uint8>
    requires |e| >= 2
  {
    e[..1] + e[2..]
  }

  /** The path with the id that a segment of this tag names set to id. */
  function WithId(p: EPath, tag8: uint8, id: uint16): EPath {
    if tag8 == ClassIdSegment8 then p.(classId := id)
    else if tag8 == InstanceIdSegment8 then p.(instanceNumber := id)
    else p.(attributeNumber := id)
  }

  /** The decoder reads back one segment that the encoder wrote. */
  lemma StepOverSegment(s: seq<uint8>, runner: nat, decoded: nat, p: EPath, tag8: uint8, id: uint16)
    requires tag8 == ClassIdSegment8 || tag8 == InstanceIdSegment8 || tag8 == AttributeIdSegment8
    requires decoded < p.pathSize
    requires runner + 2 * SegmentWords(id) <= |s|
    requires s[runner..runner + 2 * SegmentWords(id)] == Segment(tag8, id)
    ensures DecodeSegments(s, runner, decoded, p)
         == DecodeSegments(s, runner + 2 * SegmentWords(id), decoded + SegmentWords(id), WithId(p, tag8, id))
  {
    assert s[runner] == Segment(tag8, id)[0];
    if id >= 256 {
      assert Pow256(2) == 0x1_0000;
      LittleEndianRoundTrip(id, 2);
      assert s[runner + 2..runner + 4] == LittleEndian(id, 2);
    } else {
      assert s[runner + 1] == id;
    }
    assert SegmentStep(s, runner, p) == Advance(runner + 2 * SegmentWords(id), SegmentWords(id), WithId(p, tag8, id));
  }

  /** The one-byte-size layout of an encoded path. */
  lemma OneByteSizeLayout(p: EPath)
    ensures |EPathEncoding(p)| >= 2
    ensures WithOneByteSize(EPathEncoding(p)) == [p.pathSize] + EPathSegments(p)
  {
    var e := EPathEncoding(p);
    assert LittleEndian(p.pathSize, 2)[..1] == [p.pathSize];
    assert e[2..] == EPathSegments(p);
  }

  /** The segments the encoder emits for a path whose size matches them. */
  lemma ExactSegments(p: EPath)
    requires BudgetExact(p)
    ensures var c, i := SegmentWords(p.classId), SegmentWords(p.instanceNumber);
            var segC := Segment(ClassIdSegment8, p.classId);
            var segI := Segment(InstanceIdSegment8, p.instanceNumber);
            var segA := Segment(AttributeIdSegment8, p.attributeNumber);
            if p.pathSize == c then EPathSegments(p) == segC
            else if p.pathSize == c + i then EPathSegments(p) == segC + segI
            else EPathSegments(p) == segC + segI + segA
  {
  }

  /** The decoder reads back a segment the encoder wrote after `pre`. */
  lemma StepOver(pre: seq<uint8>, tag8: uint8, id: uint16, post: seq<uint8>, decoded: nat, p: EPath)
    requires tag8 == ClassIdSegment8 || tag8 == InstanceIdSegment8 || tag8 == AttributeIdSegment8
    requires decoded < p.pathSize
    ensures var s := pre + Segment(tag8, id) + post;
            var after := |pre| + 2 * SegmentWords(id);
            DecodeSegments(s, |pre|, decoded, p) == DecodeSegments(s, after, decoded + SegmentWords(id), WithId(p, tag8, id))
  {
    var s := pre + Segment(tag8, id) + post;
    assert s[|pre|..|pre| + 2 * SegmentWords(id)] == Segment(tag8, id);
    StepOverSegment(s, |pre|, decoded, p, tag8, id);
  }

  /** Round trip of a path of the class segment alone. */
  lemma RoundTripClass(p: EPath, rest: seq<uint8>)
    requires p.pathSize == SegmentWords(p.classId) && p.instanceNumber == 0 && p.attributeNumber == 0
    ensures DecodeEPath([p.pathSize] + Segment(ClassIdSegment8, p.classId) + rest) == Parsed(p, EPathCount(p) - 1)
  {
    var s := [p.pathSize] + Segment(ClassIdSegment8, p.classId) + rest;
    StepOver([p.pathSize], ClassIdSegment8, p.classId, rest, 0, EPath(p.pathSize, 0, 0, 0));
  }

  /** Round trip of a path of class and instance segments. */
  lemma RoundTripClassInstance(p: EPath, rest: seq<uint8>)
    requires p.pathSize == SegmentWords(p.classId) + SegmentWords(p.instanceNumber) && p.attributeNumber == 0
    ensures var segC, segI := Segment(ClassIdSegment8, p.classId), Segment(InstanceIdSegment8, p.instanceNumber);
            DecodeEPath([p.pathSize] + (segC + segI) + rest) == Parsed(p, EPathCount(p) - 1)
  {
    var segC, segI := Segment(ClassIdSegment8, p.classId), Segment(InstanceIdSegment8, p.instanceNumber);
    var s := [p.pathSize] + (segC + segI) + rest;
    var p0 := EPath(p.pathSize, 0, 0, 0);
    assert s == [p.pathSize] + segC + (segI + rest);
    StepOver([p.pathSize], ClassIdSegment8, p.classId, segI + rest, 0, p0);
    assert s == ([p.pathSize] + segC) + segI + rest;
    StepOver([p.pathSize] + segC, InstanceIdSegment8, p.instanceNumber, rest, SegmentWords(p.classId), p0.(classId := p.classId));
  }

  /** The regroupings of a five-part concatenation that the round trip walks through. */
  lemma Regroup(a: seq<uint8>, b: seq<uint8>, c: seq<uint8>, d: seq<uint8>, e: seq<uint8>)
    ensures a + (b + c + d) + e == a + b + (c + d + e)
    ensures a + (b + c + d) + e == (a + b) + c + (d + e)
    ensures a + (b + c + d) + e == (a + b + c) + d + e
  {
  }

  /** Round trip of a path of all three segments. */
  lemma RoundTripAll(p: EPath, rest: seq<uint8>)
    requires p.pathSize == SegmentWords(p.classId) + SegmentWords(p.instanceNumber) + SegmentWords(p.attributeNumber)
    ensures var segC, segI := Segment(ClassIdSegment8, p.classId), Segment(InstanceIdSegment8, p.instanceNumber);
            var segA := Segment(AttributeIdSegment8, p.attributeNumber);
            DecodeEPath([p.pathSize] + (segC + segI + segA) + rest) == Parsed(p, EPathCount(p) - 1)
  {
    var segC, segI := Segment(ClassIdSegment8, p.classId), Segment(InstanceIdSegment8, p.instanceNumber);
    var segA := Segment(AttributeIdSegment8, p.attributeNumber);
    var s := [p.pathSize] + (segC + segI + segA) + rest;
    var p0 := EPath(p.pathSize, 0, 0, 0);
    var p1 := p0.(classId := p.classId);
    Regroup([p.pathSize], segC, segI, segA, rest);
    StepOver([p.pathSize], ClassIdSegment8, p.classId, segI + segA + rest, 0, p0);
    StepOver([p.pathSize] + segC, InstanceIdSegment8, p.instanceNumber, segA + rest, SegmentWords(p.classId), p1);
    StepOver([p.pathSize] + segC + segI, AttributeIdSegment8, p.attributeNumber, rest,
             SegmentWords(p.classId) + SegmentWords(p.instanceNumber), p1.(instanceNumber := p.instanceNumber));
  }

  /** Round trip: a path whose size matches its segments decodes back to
      itself from the one-byte-size layout, and the decoder's count is one
      less than the encoder's (the size prefix is one byte shorter). */
  lemma EPathRoundTrip(p: EPath, rest: seq<uint8>)
    requires BudgetExact(p)
    ensures |EPathEncoding(p)| == EPathCount(p)
    ensures DecodeEPath(WithOneByteSize(EPathEncoding(p)) + rest) == Parsed(p, EPathCount(p) - 1)
  {
    OneByteSizeLayout(p);
    ExactSegments(p);
    var c, i := SegmentWords(p.classId), SegmentWords(p.instanceNumber);
    if p.pathSize == c {
      RoundTripClass(p, rest);
    } else if p.pathSize == c + i {
      RoundTripClassInstance(p, rest);
    } else {
      RoundTripAll(p, rest);
    }
  }

  /** The path class 5, instance 300, attribute 7 in four words: 8-bit class,
      padded 16-bit instance, 8-bit attribute. */
  lemma RoundTripClass5Instance300Attribute7(rest: seq<uint8>)
    ensures EPathEncoding(EPath(4, 5, 300, 7)) == [4, 0, 0x20, 5, 0x25, 0, 44, 1, 0x30, 7]
    ensures DecodeEPath(WithOneByteSize(EPathEncoding(EPath(4, 5, 300, 7))) + rest) == Parsed(EPath(4, 5, 300, 7), 9)
  {
    var p := EPath(4, 5, 300, 7);
    assert LittleEndian(4, 2) == [4, 0];
    assert LittleEndian(300, 2) == [44, 1];
    assert Segment(ClassIdSegment8, 5) == [0x20, 5];
    assert Segment(InstanceIdSegment8, 300) == [0x25, 0, 44, 1];
    assert Segment(AttributeIdSegment8, 7) == [0x30, 7];
    assert BudgetAfterClass(p) == 3 && BudgetAfterInstance(p) == 1;
    EPathEncodingLayout(p);
    assert [4, 0] + [0x20, 5] + [0x25, 0, 44, 1] + [0x30, 7] == [4, 0, 0x20, 5, 0x25, 0, 44, 1, 0x30, 7];
    EPathRoundTrip(p, rest);
  }

  /** The size-prefix mismatch: EncodeEPath writes a 2-byte size but
      DecodePaddedEPath reads a 1-byte one, so fed the encoder's own output it
      takes the size's high byte (0) for a segment tag and refuses the path. */
  lemma SizePrefixMismatch(p: EPath, rest: seq<uint8>)
    requires p.pathSize > 0
    ensures DecodeEPath(EPathEncoding(p) + rest) == Malformed
  {
    var s := EPathEncoding(p) + rest;
    assert LittleEndian(p.pathSize, 2) == [p.pathSize, 0];
    assert s[0] == p.pathSize && s[1] == 0;
    assert !IsReservedSegment(0);
  }

  /** The unsigned budget: when the declared size is smaller than the class
      segment, `length` wraps around and both later segments are still
      written, so more bytes go out than the returned count says. */
  lemma BudgetWrapEmitsUndeclaredSegments(p: EPath)
    requires p.pathSize < SegmentWords(p.classId)
    ensures 0 < BudgetAfterClass(p) && 0 < BudgetAfterInstance(p)
    ensures |EPathEncoding(p)| >= 8 > EPathCount(p)
  {
    assert BudgetAfterClass(p) >= 0x1_0000_0000 - 2;
  }

  /** The unsigned budget at the instance segment: one word left and a 16-bit
      instance make `length` wrap around again, so the attribute segment is
      still written past the declared size. */
  lemma BudgetWrapAtInstance(p: EPath)
    requires p.pathSize == SegmentWords(p.classId) + 1 && p.instanceNumber >= 256
    ensures 0 < BudgetAfterClass(p) && 0 < BudgetAfterInstance(p)
    ensures |EPathEncoding(p)| >= EPathCount(p) + 4
  {
    assert BudgetAfterClass(p) == 1;
    assert BudgetAfterInstance(p) == 0xFFFF_FFFF;
  }

  /** Whatever the decoder accepts, it never reads past the input, keeps the
      size byte, and reports 1 + 2 * the words consumed, which is the declared
      size, or one more when the last segment read is a 16-bit one that
      starts on the last declared word. */
  lemma {:induction false} DecodeSegmentsCount(s: seq<uint8>, runner: nat, decoded: nat, p: EPath)
    requires runner == 1 + 2 * decoded && runner <= |s| && decoded <= p.pathSize + 1
    requires decoded == p.pathSize + 1 ==> runner >= 5 && IsWideTag(s[runner - 4])
    ensures var r := DecodeSegments(s, runner, decoded, p);
            r.Parsed? ==> r.path.pathSize == p.pathSize && r.count <= |s| && r.count % 2 == 1
                          && p.pathSize <= r.count / 2 <= p.pathSize + 1
                          && (r.count / 2 == p.pathSize + 1 ==> r.count >= 5 && IsWideTag(s[r.count - 4]))
    decreases p.pathSize - decoded
  {
    if decoded < p.pathSize {
      match SegmentStep(s, runner, p)
      case Stop(_) =>
      case Advance(next, words, q) => DecodeSegmentsCount(s, next, decoded + words, q);
    }
  }

  /** DecodeEPath's count is bounded by the input it was given, and exceeds
      the declared size only through a 16-bit last segment. */
  lemma DecodedPathWithinInput(s: seq<uint8>)
    ensures var r := DecodeEPath(s);
            r.Parsed? ==> |s| > 0 && r.path.pathSize == s[0] && r.count <= |s| && r.count % 2 == 1
                          && s[0] <= r.count / 2 <= s[0] as int + 1
                          && (r.count / 2 == s[0] as int + 1 ==> r.count >= 5 && IsWideTag(s[r.count - 4]))
  {
    if |s| > 0 {
      DecodeSegmentsCount(s, 1, 0, EPath(s[0], 0, 0, 0));
    }
  }

  /** A reserved segment type fails the parse before anything after it is read. */
  lemma ReservedSegmentRejected(s: seq<uint8>, runner: nat, decoded: nat, p: EPath, rest: seq<uint8>)
    requires decoded < p.pathSize && runner < |s| && IsReservedSegment(s[runner])
    ensures DecodeSegments(s + rest, runner, decoded, p) == Malformed
  {
    assert (s + rest)[runner] == s[runner];
  }

  /** The tags of the segments the parsing loop reads from the state
      (runner, decoded, p) on, in order. */
  function SegmentTags(s: seq<uint8>, runner: nat, decoded: nat, p: EPath): seq<uint8>
    decreases p.pathSize - decoded
  {
    if decoded >= p.pathSize then []
    else
      match SegmentStep(s, runner, p)
      case Stop(_) => []
      case Advance(next, words, q) => [s[runner]] + SegmentTags(s, next, decoded + words, q)
  }

  /** The tags of the segments DecodeEPath reads. */
  function PathTags(s: seq<uint8>): seq<uint8> {
    if |s| == 0 then [] else SegmentTags(s, 1, 0, EPath(s[0], 0, 0, 0))
  }

  /** An id that no segment read names keeps the value it had. */
  lemma {:induction false} UnnamedIdsKept(s: seq<uint8>, runner: nat, decoded: nat, p: EPath)
    ensures var r, tags := DecodeSegments(s, runner, decoded, p), SegmentTags(s, runner, decoded, p);
            r.Parsed? ==>
              && (ClassIdSegment8 !in tags && ClassIdSegment16 !in tags ==> r.path.classId == p.classId)
              && (InstanceIdSegment8 !in tags && InstanceIdSegment16 !in tags ==> r.path.instanceNumber == p.instanceNumber)
              && (AttributeIdSegment8 !in tags && AttributeIdSegment16 !in tags ==> r.path.attributeNumber == p.attributeNumber)
    decreases p.pathSize - decoded
  {
    if decoded < p.pathSize {
      match SegmentStep(s, runner, p)
      case Stop(_) =>
      case Advance(next, words, q) =>
        UnnamedIdsKept(s, next, decoded + words, q);
    }
  }

  /** Ids that the path does not name decode as 0. */
  lemma AbsentIdsStayZero(s: seq<uint8>)
    ensures var r, tags := DecodeEPath(s), PathTags(s);
            r.Parsed? ==>
              && (ClassIdSegment8 !in tags && ClassIdSegment16 !in tags ==> r.path.classId == 0)
              && (InstanceIdSegment8 !in tags && InstanceIdSegment16 !in tags ==> r.path.instanceNumber == 0)
              && (AttributeIdSegment8 !in tags && AttributeIdSegment16 !in tags ==> r.path.attributeNumber == 0)
  {
    if |s| > 0 {
      UnnamedIdsKept(s, 1, 0, EPath(s[0], 0, 0, 0));
    }
  }
}
