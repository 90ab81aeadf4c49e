/** Types and constants shared by the CIP object model and its codecs:
    fixed-width unsigned integers, the attribute data-type tags, attribute
    values, logical-segment paths, and the status and service codes that
    cipcommon.c uses. */
module CipTypes {

  type uint8 = x: int | 0 <= x < 0x100
  type uint16 = x: int | 0 <= x < 0x1_0000
  type uint32 = x: int | 0 <= x < 0x1_0000_0000
  type uint64 = x: int | 0 <= x < 0x1_0000_0000_0000_0000

  datatype Option<T> = None | Some(value: T)

  /** Outcome of a stack operation (EipStatus: Ok = 0, OkSend = 1, Error = -1). */
  datatype EipStatus = StatusOk | StatusOkSend | StatusError

  // Service codes
  const GetAttributeAllService: uint8 := 0x01
  const GetAttributeSingleService: uint8 := 0x0E

  // General status codes
  const Success: uint8 := 0x00
  const PathDestinationUnknown: uint8 := 0x05
  const ServiceNotSupported: uint8 := 0x08
  const AttributeNotSupported: uint8 := 0x14

  // Attribute visibility flags
  const GetableAll: bv8 := 0x01
  const GetableSingle: bv8 := 0x02
  const GetableSingleAndAll: bv8 := 0x03

  /** The class code of the assembly object, whose byte arrays get a pre-send hook. */
  const AssemblyClassCode: uint32 := 0x04

  /** The reply service code: the request's service with bit 0x80 set. */
  function ReplyService(service: uint8): (r: uint8)
    ensures r >= 0x80
    ensures r % 0x80 == service % 0x80
  {
    ((service as bv8) | 0x80) as int
  }

  /** The data-type tags of attribute values. `Unlisted` stands for any tag
      byte that names none of these (a zero-filled slot has tag 0). */
  datatype CipType =
    | CipBool | CipSint | CipInt | CipDint | CipLint
    | CipUsint | CipUint | CipUdint | CipUlint
    | CipReal | CipLreal
    | CipStime | CipDate | CipTimeOfDay | CipDateAndTime
    | CipString | CipByte | CipWord | CipDword | CipLword
    | CipString2 | CipFtime | CipLtime | CipItime | CipStringN
    | CipShortString | CipTime | CipEpath | CipEngUnit
    | CipUsintUsint | CipUdintUdintUdintUdintUdintString | Cip6Usint
    | CipMemberList | CipByteArray | InternalUint6
    | Unlisted(code: uint8)

  /** A logical-segment path: the number of 16-bit words and the three ids. */
  datatype EPath = EPath(pathSize: uint8, classId: uint16, instanceNumber: uint16, attributeNumber: uint16)

  /** The value an attribute's data pointer refers to, by shape. */
  datatype CipValue =
    | Byte8(b: uint8)
    | Word16(w: uint16)
    | Word32(d: uint32)
    | Word64(l: uint64)
    | Text(chars: seq<uint8>)
    | Revision(major: uint8, minor: uint8)
    | Octets(bytes: seq<uint8>)
    | Words(words: seq<uint16>)
    | NetworkConfiguration(ipAddress: uint32, networkMask: uint32, gateway: uint32,
                           nameServer: uint32, nameServer2: uint32, domainName: seq<uint8>)
    | PathValue(path: EPath)
    | Opaque

  /** How EncodeData lays out a value of each type: the cases of its switch. */
  datatype Layout =
    | OneByte | TwoBytes | FourBytes | EightBytes
    | StringLayout | ShortStringLayout | PathLayout | RevisionPair
    | NetworkBlock | SixBytes | ByteArrayLayout | SixWords
    | NoLayout

  /** The case of EncodeData's switch a type tag falls into. REAL and LREAL
      are copied bit for bit like a double and a long word. */
  function LayoutOf(t: CipType): Layout {
    match t
    case CipBool | CipSint | CipUsint | CipByte => OneByte
    case CipInt | CipUint | CipWord => TwoBytes
    case CipDint | CipUdint | CipDword | CipReal => FourBytes
    case CipLint | CipUlint | CipLword | CipLreal => EightBytes
    case CipString => StringLayout
    case CipShortString => ShortStringLayout
    case CipEpath => PathLayout
    case CipUsintUsint => RevisionPair
    case CipUdintUdintUdintUdintUdintString => NetworkBlock
    case Cip6Usint => SixBytes
    case CipByteArray => ByteArrayLayout
    case InternalUint6 => SixWords
    case _ => NoLayout
  }

  /** Whether `v` has the shape that an attribute of type `t` points to: the
      C code reinterprets the data pointer according to the tag, so a value of
      another shape is a caller error. Types that are never encoded accept
      anything. */
  predicate Fits(t: CipType, v: CipValue) {
    match LayoutOf(t)
    case OneByte => v.Byte8?
    case TwoBytes => v.Word16?
    case FourBytes => v.Word32?
    case EightBytes => v.Word64?
    case StringLayout => v.Text? && |v.chars| < 0x1_0000
    case ShortStringLayout => v.Text? && |v.chars| < 0x100
    case PathLayout => v.PathValue?
    case RevisionPair => v.Revision?
    case NetworkBlock => v.NetworkConfiguration? && |v.domainName| < 0x1_0000
    case SixBytes => v.Octets? && |v.bytes| == 6
    case ByteArrayLayout => v.Octets? && |v.bytes| < 0x1_0000
    case SixWords => v.Words? && |v.words| == 6
    case NoLayout => true
  }
}
