# OpENer CIP object model core, in Dafny

This project models the common part of OpENer's CIP (Common Industrial
Protocol) object model, `source/src/cip/cipcommon.c`:

- **the class registry**: classes, their metaclasses and class objects,
  instance chains, attribute tables and service tables, built by
  `CreateCipClass`, `AddCipInstances`, `AddCIPInstance`, `InsertAttribute`
  and `InsertService`;
- **the dispatcher**: `NotifyClass` routes a message-router request to the
  instance and service its path names, and the two generic services,
  `GetAttributeSingle` and `GetAttributeAll`, build the reply;
- **the attribute codec**: `EncodeData` and `DecodeData` write and read
  attribute values in the CIP data-type encoding at a message cursor;
- **the path codec**: `EncodeEPath` and `DecodePaddedEPath` write and read
  logical-segment paths (class, instance, attribute).

The code changes state step by step, and the model keeps that form. Classes,
instances, requests and replies are Dafny classes whose methods update their
fields. Attribute and service tables and the reply buffer are arrays. The
instance chain and the registry's class list are sequences that the methods
reassign. A message cursor (`EipUint8 **message`) is a buffer and a position:
writers return the advanced position, readers return the value with it.

Each method is proved against a specification function:
- `Encoding` / `Decoding` for the attribute codec;
- `EPathEncoding` / `DecodeEPath` for the path codec;
- `FindAttribute`, `FindService`, `FirstIndexOf` for the table searches;
- `SingleGet` for one GetAttributeSingle reply;
- `Asked` / `Collected` / `ApplyWrites` for the GetAttributeAll loop.

The lemmas then state what those functions promise:
- round trips of both codecs;
- which attributes a get-all collects, and how the replies line up in the buffer;
- what the class attributes of a new class read;
- how a new class's service table answers each service code.

Files, one module each: `cip_types.dfy` (types, status and service codes),
`endian.dfy` (little-endian helpers and buffer writes), `path_codec.dfy`,
`attribute_codec.dfy`, `registry.dfy`, `dispatch.dfy` and
`dispatch_properties.dfy`.

Behaviours of the code that the model keeps as written, each stated by a lemma:
- EncodeEPath writes a 2-byte size while DecodePaddedEPath reads a 1-byte one (`PathCodec.SizePrefixMismatch`).
- EncodeEPath's unsigned word budget wraps below zero, at the class segment (`PathCodec.BudgetWrapEmitsUndeclaredSegments`) and at the instance segment (`PathCodec.BudgetWrapAtInstance`).
- An odd STRING's pad byte is skipped unread, so DecodeData accepts a STRING whose pad lies past the end of the input (`AttributeCodec.StringPadPastEnd`).
- EncodeEPath returns `2 + 2 * path_size` whatever it wrote (`AttributeCodec.CountAndCursorAgainstBytesWritten`).
- The 6-byte array copy does not advance the cursor (`AttributeCodec.CountAndCursorAgainstBytesWritten`).
- REAL and LREAL are encoded but not decoded (`AttributeCodec.RealsAreEncodedButNotDecoded`).
- Service code 0 finds a zero-filled service slot with a NULL handler (`DispatchProperties.StandardServiceLookup`).

## Model

| member | source | states |
|---|---|---|
| CipTypes.ReplyService | source/src/cip/cipcommon.c:372-373 | The reply service code has bit 0x80 set and agrees with the request's service in the low seven bits. |
| EndianConv.LittleEndianRoundTrip | source/src/cip/cipcommon.c:591-603 | Reading back the little-endian bytes of a value that fits in the width gives the value. |
| EndianConv.FromLittleEndianRoundTrip | source/src/cip/cipcommon.c:591-603 | Every byte string is the little-endian encoding of the number it reads as. |
| EndianConv.PutByte | source/src/cip/cipcommon.c:422-423 | One byte is written at the cursor, which advances by one. |
| EndianConv.AddIntToMessage | source/src/cip/cipcommon.c:430 | The 16-bit value's two little-endian bytes are written at the cursor, which advances by 2. |
| EndianConv.AddDintToMessage | source/src/cip/cipcommon.c:438 | The 32-bit value's four little-endian bytes are written at the cursor, which advances by 4. |
| EndianConv.AddLintToMessage | source/src/cip/cipcommon.c:447 | The 64-bit value's eight little-endian bytes are written at the cursor, which advances by 8. |
| EndianConv.PutBytes | source/src/cip/cipcommon.c:461-462 | memcpy into the message: the bytes go at the cursor, which advances past them, and nothing else changes. |
| EndianConv.GetIntFromMessage | source/src/cip/cipcommon.c:594 | The two bytes at the cursor are read as a little-endian value, and the cursor advances by 2. |
| EndianConv.GetDintFromMessage | source/src/cip/cipcommon.c:601 | The four bytes at the cursor are read as a little-endian value, and the cursor advances by 4. |
| EndianConv.GetLintFromMessage | source/src/cip/cipcommon.c:609 | The eight bytes at the cursor are read as a little-endian value, and the cursor advances by 8. |
| EndianConv.GetBytes | source/src/cip/cipcommon.c:618-619 | memcpy out of the message: the bytes at the cursor, which advances past them. |
| PathCodec.PutSegment | source/src/cip/cipcommon.c:709-722 | One segment is written: the 8-bit tag and value for an id below 256, otherwise the 16-bit tag, a pad byte and the id little-endian. The cursor moves by 2 or 4 bytes. |
| PathCodec.EPathEncodingLayout | source/src/cip/cipcommon.c:705-756 | The path encoding is the size word, then the class segment, then the instance and attribute segments exactly while the word budget is positive. |
| PathCodec.EncodeEPath | source/src/cip/cipcommon.c:705-759 | Exactly the path encoding is written at the cursor, which advances past it. The return value is 2 + 2 * path_size. |
| PathCodec.ReadSegment | source/src/cip/cipcommon.c:775-818 | One iteration of the decoding loop, agreeing with the segment-step function on every input. A reserved type or an unknown tag stops the parse. An 8-bit segment counts one word and a 16-bit one two. |
| PathCodec.DecodePaddedEPath | source/src/cip/cipcommon.c:761-823 | The result is the path the bytes encode (ids not present stay 0) with count 1 + 2 * words consumed, or an error. On success the cursor moves by the count; on error it stays. |
| PathCodec.EPathRoundTrip | source/src/cip/cipcommon.c:705-823 | A path whose declared size matches its segments decodes back to itself from the one-byte-size layout. The decoder's count is one less than the encoder's. |
| PathCodec.RoundTripClass5Instance300Attribute7 | source/src/cip/cipcommon.c:705-823 | Class 5, instance 300, attribute 7 with path size 4 encodes as `04 00 20 05 25 00 2C 01 30 07` and decodes back with count 9. |
| PathCodec.SizePrefixMismatch | source/src/cip/cipcommon.c:707 | Fed EncodeEPath's own output, DecodePaddedEPath reads the size's high byte as a segment tag and refuses every path of non-zero size. |
| PathCodec.BudgetWrapEmitsUndeclaredSegments | source/src/cip/cipcommon.c:706-721 | A declared size smaller than the class segment wraps the unsigned budget at line 721. All three segments are then written, more bytes than the returned count. |
| PathCodec.BudgetWrapAtInstance | source/src/cip/cipcommon.c:724-756 | A declared size one word past the class segment, with a 16-bit instance, wraps the budget again at line 737. The attribute segment is still written, at least 4 bytes more than the returned count. |
| PathCodec.DecodeSegmentsCount | source/src/cip/cipcommon.c:772-822 | Whatever the loop accepts, it reads within the input. The count is odd and covers the declared size. It is one word more only when the last segment read, which starts 4 bytes before the count, has a 16-bit tag. |
| PathCodec.DecodedPathWithinInput | source/src/cip/cipcommon.c:761-823 | A parsed path keeps the size byte. Its count is odd, within the input, and covers the declared size in words. It exceeds that size only through a 16-bit last segment. |
| PathCodec.ReservedSegmentRejected | source/src/cip/cipcommon.c:775-778 | A reserved segment type fails the parse whatever follows it. |
| PathCodec.UnnamedIdsKept | source/src/cip/cipcommon.c:772-818 | From any loop state, an id whose tags (8-bit or 16-bit) are among none of the segments read keeps its value. |
| PathCodec.AbsentIdsStayZero | source/src/cip/cipcommon.c:768-770 | For every input a parsed path has class, instance or attribute id 0 when no segment read carries that id's tag. |
| AttributeCodec.StringEncoding | source/src/cip/cipcommon.c:457-471 | A STRING takes a 2-byte length, the characters and a 0 pad byte when the two are odd together. Its length is even. |
| AttributeCodec.Encoding | source/src/cip/cipcommon.c:415-571 | The byte count EncodeData writes for each case of its switch. Nothing is written for the time types, STRING2, STRINGN, ENGUNIT, the member list, unknown tags, or the 8-byte types without 64-bit support. |
| AttributeCodec.PutString | source/src/cip/cipcommon.c:457-471 | A STRING is written as its encoding, and the count is its length. |
| AttributeCodec.PutShortString | source/src/cip/cipcommon.c:480-490 | A SHORT_STRING is written as a 1-byte length and the characters, with count length + 1. |
| AttributeCodec.PutNetworkConfiguration | source/src/cip/cipcommon.c:514-532 | The TCP/IP block is written as five double words and the domain name STRING. The count is the sum of the parts. |
| AttributeCodec.PutSixWords | source/src/cip/cipcommon.c:555-566 | Six 16-bit words are written little-endian, one after another, with count 12. |
| AttributeCodec.EncodeData | source/src/cip/cipcommon.c:412-574 | The value's encoding is written at the cursor. The count is the bytes written, except EncodeEPath's count for a path. The cursor moves past the bytes, except for the 6-byte array, which leaves it. |
| AttributeCodec.Decoding | source/src/cip/cipcommon.c:576-647 | Unsupported exactly for the types DecodeData has no case for. A decoded value has the type's shape and consumes part of the input, or all of it plus the pad byte of an odd STRING. |
| AttributeCodec.GetFixed | source/src/cip/cipcommon.c:582-612 | The integer cases of DecodeData: the value of the 1, 2, 4 or 8 bytes at the cursor, which moves past them. |
| AttributeCodec.GetString | source/src/cip/cipcommon.c:615-628 | A STRING: the 2-byte length, then that many characters. When the count is odd, the pad byte is skipped without being read and is counted, even if it lies past the end of the input. Input shorter than the length and characters is truncated. |
| AttributeCodec.StringPadPastEnd | source/src/cip/cipcommon.c:620-626 | The input `01 00 61` decodes as the one-character string with count 4: the pad is counted although it is not there. |
| AttributeCodec.GetShortString | source/src/cip/cipcommon.c:629-640 | A SHORT_STRING: the 1-byte length and the characters, with count length + 1. |
| AttributeCodec.DecodeData | source/src/cip/cipcommon.c:576-647 | The value and count of the bytes at the cursor, or "unsupported" (-1). On success the cursor moves by the count; otherwise it stays. |
| AttributeCodec.DecodeEncodeRoundTrip | source/src/cip/cipcommon.c:412-647 | For every type DecodeData reads, decoding EncodeData's bytes gives the value back and consumes exactly them, whatever follows. |
| AttributeCodec.EncodeDecodeRoundTrip | source/src/cip/cipcommon.c:412-647 | Whatever DecodeData accepts, EncodeData writes back byte for byte, except that a STRING's skipped pad byte comes back as 0. |
| AttributeCodec.StringRoundTrip | source/src/cip/cipcommon.c:457-471 | A STRING reads back from the front of its encoding, pad byte included. |
| AttributeCodec.RealsAreEncodedButNotDecoded | source/src/cip/cipcommon.c:437 | REAL and LREAL are written as 4 and 8 bytes but DecodeData has no case for them. |
| AttributeCodec.NoSixtyFourBitSupport | source/src/cip/cipcommon.c:442-450 | Without 64-bit support the 8-byte types write nothing, return 0 and are not decoded. |
| AttributeCodec.CountAndCursorAgainstBytesWritten | source/src/cip/cipcommon.c:496-539 | The count equals the bytes written except for a path whose size does not match its segments. The cursor moves past them except for the 6-byte array. |
| Registry.FindAttribute | source/src/cip/cipcommon.c:344-358 | The first slot with the number, or none when no slot has it. |
| Registry.FirstFreeAttribute | source/src/cip/cipcommon.c:296-310 | The first slot whose data is NULL, or none. |
| Registry.ServiceSlotFor | source/src/cip/cipcommon.c:328-338 | The first slot that has the service number or a NULL handler, or none. |
| Registry.FindService | source/src/cip/cipcommon.c:86-97 | The first slot with the service number, filled or not, or none. |
| Registry.FirstIndexOf | source/src/cip/cipcommon.c:78 | The first instance (or class) with the number, or none. |
| Registry.CipInstance.constructor | source/src/cip/cipcommon.c:148-151 | A new instance has a zero-filled attribute table of the class's size. |
| Registry.CipInstance.GetCipAttribute | source/src/cip/cipcommon.c:344-358 | The index of the first of number_of_attributes slots with the number, or none. |
| Registry.CipInstance.InsertAttribute | source/src/cip/cipcommon.c:289-319 | The first slot with NULL data is filled and nothing else changes. The class's highest attribute number rises to the new number when it is larger. Without a free slot (the source's assertion) nothing changes. |
| Registry.CipClass.constructor | source/src/cip/cipcommon.c:193-241 | A class with its fields set, zero-filled services, no instances and highest attribute 0. Given a metaclass, it also gets a class object: instance 0, owned by the metaclass and sized by it. |
| Registry.CipClass.GetCipInstance | source/src/cip/cipcommon.c:77-78 | 0 names the class object. Any other number names the first instance in the chain with it, or null. |
| Registry.CipClass.FindServiceSlot | source/src/cip/cipcommon.c:86-97 | The index of the first of number_of_services slots with the service number, or none. |
| Registry.CipClass.InsertService | source/src/cip/cipcommon.c:321-342 | The first slot with the service number or a NULL handler is overwritten and nothing else changes. Without one (the source's assertion) nothing changes. |
| Registry.CipClass.AddCipInstances | source/src/cip/cipcommon.c:119-160 | The chain is kept and count new instances are appended. Each is numbered by its position after the chain, owned by the class, with a zero-filled table. The 16-bit counter rises by count, wrapping. |
| Registry.CipClass.AddCIPInstance | source/src/cip/cipcommon.c:162-170 | Returns the existing instance with the number (the class object for 0), and then the chain and the counter stay unchanged. Otherwise one new instance carries the number and the counter rises by one. |
| Registry.ClassRegistry.GetCipClass | source/src/cip/cipcommon.c:186-187 | The first registered class with the id, or null. |
| Registry.ClassRegistry.RegisterCipClass | source/src/cip/cipcommon.c:249-251 | The class is appended to the registry, or the registry is unchanged and the status is an error. |
| Registry.ClassRegistry.CreateCipClass | source/src/cip/cipcommon.c:172-287 | A used id or a refused registration leaves the registry as it was. Otherwise a fresh class is registered with its metaclass (id 0xFFFFFFFF, 7 more attributes), class object, instances, class attributes 1 to 7 and standard services. |
| Registry.NewClass | source/src/cip/cipcommon.c:193-247 | The allocation half of CreateCipClass: class, metaclass and class object with zero-filled tables, and the instances. |
| Registry.InsertStandardEntries | source/src/cip/cipcommon.c:253-284 | Class attributes 1 to 7 fill the class object's first seven slots. The standard services lead both service tables. The metaclass's highest attribute is 7. |
| Registry.InsertStandardClassAttributes | source/src/cip/cipcommon.c:253-270 | The seven InsertAttribute calls fill slots 1 to 7 in order, and the metaclass's highest attribute number becomes 7. |
| Registry.InsertStandardServices | source/src/cip/cipcommon.c:272-284 | GetAttributeAll (only when the mask is non-zero) and GetAttributeSingle go into the first slots, in order. |
| Registry.StandardClassAttributes | source/src/cip/cipcommon.c:253-270 | Class attributes 1 to 7, numbered 1 to 7, each with data set. |
| Registry.StandardServices | source/src/cip/cipcommon.c:272-284 | The standard services end with GetAttributeSingle, preceded by GetAttributeAll exactly when the mask is non-zero. |
| Dispatch.FieldsOf | source/src/cip/cipcommon.c:253-270 | Class fields exist exactly for a class object. |
| Dispatch.AttributeValue | source/src/cip/cipcommon.c:401-403 | The value a set data pointer refers to has the shape its type needs. |
| Dispatch.GetAttributeSingle | source/src/cip/cipcommon.c:361-410 | Returns OkSend. The reply header carries the reply service code, the reply's status, no additional status and the reply's data length. The attribute's encoding goes at the reply position when it is set and its flags allow the service. |
| Dispatch.StartReply | source/src/cip/cipcommon.c:369-383 | The reply starts with no data and the reply service code. The status is success under GetAttributeAll's code and "attribute not supported" otherwise. The returned mask is the flag that service needs. |
| Dispatch.SendAttribute | source/src/cip/cipcommon.c:399-403 | The attribute's encoding is written at the reply position. Its count becomes the data length and the status is success. |
| Dispatch.ErrorReply | source/src/cip/cipcommon.c:106-113 | An error reply: the status given, no additional status, no data and the reply service code. |
| Dispatch.AppendReply | source/src/cip/cipcommon.c:685-689 | One more reply adds its data length, needs room at the end of the others, and is written there. |
| Dispatch.RoomUpTo | source/src/cip/cipcommon.c:676-690 | Room for all the replies is room for those over any prefix of the table. |
| Dispatch.HeaderAfterGetAll | source/src/cip/cipcommon.c:676-692 | The header after the loop is the starting one when nothing was asked. Otherwise the path names the last attribute asked and the status is its reply's. |
| Dispatch.ProgressAppend | source/src/cip/cipcommon.c:682-689 | One more reply advances the loop state: its bytes are written at the reply position, which moves by its data length, and the header becomes its own. |
| Dispatch.GetAllSkip | source/src/cip/cipcommon.c:679-681 | A slot the mask does not name adds no number and no reply. |
| Dispatch.GetAllAsk | source/src/cip/cipcommon.c:679-689 | A slot the mask names adds its number and GetAttributeSingle's reply to it. |
| Dispatch.GetAttributeAll | source/src/cip/cipcommon.c:649-703 | Without a GetAttributeSingle service: status Ok and nothing changes. Without attributes: a "service not supported" reply. Otherwise OkSend and the loop's replies. |
| Dispatch.GetAllLoop | source/src/cip/cipcommon.c:676-693 | Each reply goes where the previous one's data length ended. The data length is the sum of theirs, the reply position is restored, and the header is the last reply's. |
| Dispatch.GetAllNext | source/src/cip/cipcommon.c:676-690 | One iteration of the attribute loop moves the loop state from slot j to slot j + 1. |
| Dispatch.GetAllStep | source/src/cip/cipcommon.c:682-689 | The path names the attribute. GetAttributeSingle's reply is written at the reply position, which moves by its data length. |
| Dispatch.InstanceFor | source/src/cip/cipcommon.c:77-78 | Instance 0 is the class object. Any other number gives an instance of the class with that number, or null when none has it. |
| Dispatch.NotifyClass | source/src/cip/cipcommon.c:68-117 | An unknown instance gets "path destination unknown" and an unknown service "service not supported", with nothing else changed. A found slot's handler runs: the two generic services with their contracts, another object's handler by its id, a NULL handler flagged. |
| DispatchProperties.SingleGetStatus | source/src/cip/cipcommon.c:371-406 | Success exactly when the attribute is sent or the service is GetAttributeAll's; "attribute not supported" exactly otherwise. Nothing is written unless the attribute is sent, and then its encoding is. |
| DispatchProperties.SingleGetReadsBack | source/src/cip/cipcommon.c:401-403 | What GetAttributeSingle writes for a type DecodeData reads, DecodeData reads back as the attribute's value, consuming the reported data length. |
| DispatchProperties.SingleGetHonest | source/src/cip/cipcommon.c:401-404 | Without EPATH attributes, every reply's data length is the number of bytes it wrote. |
| DispatchProperties.HonestRepliesConcatenate | source/src/cip/cipcommon.c:682-692 | Replies whose data lengths are the bytes they wrote, each written where the previous one ended, amount to one write of their concatenation. The data lengths add up to its length. |
| DispatchProperties.AskedExactly | source/src/cip/cipcommon.c:676-681 | GetAttributeAll asks for attribute n exactly when a slot has number n, n is below 32 and its bit is set in the class's mask. |
| DispatchProperties.CollectedAnswersAsked | source/src/cip/cipcommon.c:676-689 | The k-th reply collected is GetAttributeSingle's reply to the k-th number asked. |
| DispatchProperties.GetAllConcatenates | source/src/cip/cipcommon.c:676-692 | Without EPATH attributes, GetAttributeAll writes the replies one after another from the reply position. Its data length is their total length. |
| DispatchProperties.BitIsShiftedMask | source/src/cip/cipcommon.c:679-680 | The bit test of the model is `mask & (1 << n)`. |
| DispatchProperties.FindStandardAttribute | source/src/cip/cipcommon.c:253-270 | Class attribute n, from 1 to 7, is found in slot n - 1 of a new class object. |
| DispatchProperties.StandardClassAttributeReplies | source/src/cip/cipcommon.c:253-270 | Class attributes 1 to 7 read as the revision, the instance counter (twice), 0 (only through GetAttributeAll) twice, and the highest class and instance attribute numbers. Any other number, 0 included, is refused. |
| DispatchProperties.CreatedClassObjectReplies | source/src/cip/cipcommon.c:172-287 | A new class object replies to attribute 1 with the class's revision, 6 with 7, and 7 with 0. |
| DispatchProperties.StandardServiceLookup | source/src/cip/cipcommon.c:86-97 | In a new class's service table, GetAttributeSingle has the generic handler. GetAttributeAll is there exactly when the mask is non-zero. Service 0 hits a zero-filled slot with a NULL handler when one exists. No other service code is found. |

## Left out

- Stack start-up and shut-down (`CipStackInit`, `ShutdownCipStack`, lines 33-66) are left out: they call the initialisers and destructors of other objects, which are not part of this model.
- Class names, service names and the "meta-" name prefix are not modelled; they only feed trace output.
- Trace output is not modelled, nor the `instance_number == 2` trace in GetAttributeAll.
- Allocation failure of `CipCalloc` is not modelled; every allocation succeeds.
- The instance chain's `next` links are a sequence of instances. The class struct embedding its class object becomes a separate `CipInstance` whose `describes` field names the class.
- `GetCipInstance`, `GetCipClass` and `RegisterCipClass` live in other files and are modelled from their uses here. The message router's table is a sequence with a fixed capacity; a full table stands for its allocation failure.
- `BeforeAssemblyDataSend`, the assembly object's pre-send hook (lines 392-398), is application code and is not called.
- `ntohl` in the TCP/IP block (lines 518-528) is not modelled: the block's fields are taken in the byte order it leaves them in.
- REAL and LREAL are copied bit for bit; their floating-point meaning is not modelled.
- Service handlers of other objects are foreign code: NotifyClass reports which one it would call (`ForeignHandler(id)`) and does not model its effect or status.
- Dispatch.NotifyClass: a NULL handler in a matching slot (the source asserts, line 93) is reported as `NullHandler` instead of calling through the NULL pointer.
- Dispatch.GetAttributeAll: requires the GetAttributeSingle slot of the class to hold the generic handler, as CreateCipClass installs it; with another handler it would call foreign code. The abort branch for a handler that does not return OkSend (lines 683-687) therefore cannot occur and is not modelled.
- Dispatch.GetAttributeAll: requires room in the reply buffer for every reply; the source writes unchecked (the TODO at line 360).
- Dispatch.GetAttributeSingle: requires room in the reply buffer for the encoded attribute; the source writes unchecked.
- AttributeCodec.EncodeData: requires room at the cursor and a value whose shape matches the type tag; the C code reinterprets the data pointer and copies without a bound.
- PathCodec.EncodeEPath: requires room at the cursor; the source writes unchecked.
- AttributeCodec.DecodeData: reads past the end of the input report `Truncated`; the source reads whatever memory follows. A STRING's pad byte is never read, so one missing pad is not a truncation, and the cursor then moves one past the input as in the source.
- PathCodec.DecodePaddedEPath: reads past the end of the input report `Truncated`; the source reads whatever memory follows. On error the path is not returned, whereas the source leaves it partly filled.
- Registry.CipInstance.InsertAttribute: a full table returns `false` and leaves everything unchanged where the source asserts.
- Registry.CipClass.InsertService: a full table returns `false` and leaves everything unchanged where the source asserts.
- Registry.ClassRegistry.CreateCipClass: a class id already in use returns `AlreadyDefined` where the source asserts. A refused registration returns `NotRegistered`; the source returns 0 and leaks the class, which is not modelled.
- Registry.CipClass.AddCipInstances: requires at least one instance and fewer than 2^31 in all, the range of the source's `int` instance numbers.
- Table sizes (`number_of_attributes`, `number_of_services`) are natural numbers; their C `int` range is not modelled.
- The attribute data-type tags are a datatype with one constructor per listed tag and `Unlisted` for any other byte. Their numeric values are not modelled.
