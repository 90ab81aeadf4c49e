/** The generic services and the service dispatcher of the object model:
    GetAttributeSingle encodes one attribute into the reply, GetAttributeAll
    gathers every attribute the class's get-all mask names by calling the
    class's GetAttributeSingle service once per attribute, and NotifyClass
    routes a request to the instance and service it names. */
module Dispatch {
  import opened CipTypes
  import opened EndianConv
  import opened AttributeCodec
  import opened Registry

  /** The parts of a message-router request these services use: the service
      code and the decoded request path. */
  class Request {
    var service: uint8
    var path: EPath

    constructor (service: uint8, path: EPath)
      ensures this.service == service && this.path == path
    {
      this.service := service;
      this.path := path;
    }
  }

  /** The reply being built: its header fields, and `data`, the position in
      the reply buffer where the services write. */
  class Response {
    var replyService: uint8
    var generalStatus: uint8
    var sizeOfAdditionalStatus: nat
    var dataLength: int
    var data: nat
    const buffer: array<uint8>

    constructor (buffer: array<uint8>)
      ensures this.buffer == buffer && data == 0 && dataLength == 0
      ensures replyService == 0 && generalStatus == 0 && sizeOfAdditionalStatus == 0
    {
      this.buffer := buffer;
      data := 0;
      dataLength := 0;
      replyService := 0;
      generalStatus := 0;
      sizeOfAdditionalStatus := 0;
    }
  }

  /** The class fields that class attributes point at: the revision, the
      instance counter and the highest instance attribute number of the class
      the class object describes, and the highest class attribute number of
      its metaclass. */
  datatype ClassFieldValues = ClassFieldValues(revision: uint16, numberOfInstances: uint16,
                                               classHighest: uint16, instanceHighest: uint16)

  /** The current class fields an instance's attributes can point at; none
      for an instance that is not a class object. */
  function FieldsOf(inst: CipInstance): (r: Option<ClassFieldValues>)
    reads inst.owner, inst.describes
    ensures r.Some? <==> inst.describes != null
  {
    if inst.describes == null then None
    else Some(ClassFieldValues(inst.describes.revision, inst.describes.numberOfInstances,
                               inst.owner.highestAttributeNumber, inst.describes.highestAttributeNumber))
  }

  /** Every slot's data has the shape its type says, and class fields are
      referred to only when there are class fields. */
  predicate SlotsFitWith(slots: seq<AttributeSlot>, fields: Option<ClassFieldValues>) {
    forall i :: 0 <= i < |slots| ==> SlotFitsWith(SlotAt(slots, i), fields)
  }

  /** The slot at index i of a table. */
  function SlotAt(slots: seq<AttributeSlot>, i: nat): AttributeSlot
    requires i < |slots|
  {
    slots[i]
  }

  /** A slot's data has the shape its type says, and it refers to class
      fields only when there are class fields. */
  predicate SlotFitsWith(slot: AttributeSlot, fields: Option<ClassFieldValues>) {
    SlotFits(slot) && (slot.data.Live? ==> fields.Some?)
  }

  /** The value an attribute's data pointer refers to: its own value, or the
      current value of the class field it points at. */
  function AttributeValue(slot: AttributeSlot, fields: Option<ClassFieldValues>): (v: CipValue)
    requires slot.data.Live? ==> fields.Some?
    ensures SlotFits(slot) && !slot.data.NoData? ==> Fits(slot.cipType, v)
  {
    match slot.data
    case NoData => Opaque
    case Stored(value) => value
    case Live(RevisionField) => Word16(fields.value.revision)
    case Live(InstanceCountField) => Word16(fields.value.numberOfInstances)
    case Live(ClassHighestAttribute) => Word16(fields.value.classHighest)
    case Live(InstanceHighestAttribute) => Word16(fields.value.instanceHighest)
  }

  /** What one GetAttributeSingle call puts in the reply: the general status,
      the data length, and the bytes written at the reply position. */
  datatype Reply = Reply(status: uint8, count: nat, bytes: seq<uint8>)

  /** The flag an attribute needs: "getable all" under the GetAttributeAll
      service code, "getable single" under any other. */
  function GetMask(service: uint8): bv8 {
    if service == GetAttributeAllService then GetableAll else GetableSingle
  }

  /** Whether the attribute found under `number` is sent: it exists, its data
      pointer is set and its flags allow it under this service. */
  predicate Getable(slots: seq<AttributeSlot>, number: uint16, service: uint8) {
    match FindAttribute(slots, number)
    case None => false
    case Some(i) => !slots[i].data.NoData? && slots[i].flags & GetMask(service) != 0
  }

  /** The reply of GetAttributeSingle when nothing is sent: success under the
      GetAttributeAll service code, "attribute not supported" otherwise. */
  function Refused(service: uint8): Reply {
    Reply(if service == GetAttributeAllService then Success else AttributeNotSupported, 0, [])
  }

  /** The reply of GetAttributeSingle when the attribute is sent: success,
      EncodeData's count and the encoded value. */
  function Sent(slot: AttributeSlot, fields: Option<ClassFieldValues>, support64: bool): Reply
    requires SlotFits(slot) && !slot.data.NoData? && (slot.data.Live? ==> fields.Some?)
  {
    var v := AttributeValue(slot, fields);
    Reply(Success, EncodedCount(slot.cipType, v, support64), Encoding(slot.cipType, v, support64))
  }

  /** The reply of GetAttributeSingle for attribute `number` of an instance
      with these attribute slots and class fields. */
  function SingleGet(slots: seq<AttributeSlot>, fields: Option<ClassFieldValues>, number: uint16,
                     service: uint8, support64: bool): Reply
    requires SlotsFitWith(slots, fields)
  {
    match FindAttribute(slots, number)
    case None => Refused(service)
    case Some(i) =>
      var slot := SlotAt(slots, i);
      if !slot.data.NoData? && slot.flags & GetMask(service) != 0 then Sent(slot, fields, support64)
      else Refused(service)
  }

  /** What GetAttributeSingle does: the reply header of the reply for the
      attribute the request path names, its data length, and its bytes
      written at the reply position. */
  twostate predicate SingleGetDone(inst: CipInstance, request: Request, response: Response, support64: bool)
    requires old(SlotsFitWith(inst.attributes[..], FieldsOf(inst)))
    requires old(response.data + |SingleGet(inst.attributes[..], FieldsOf(inst), request.path.attributeNumber,
                                            request.service, support64).bytes| <= response.buffer.Length)
    reads request, response, response.buffer
  {
    var reply := old(SingleGet(inst.attributes[..], FieldsOf(inst), request.path.attributeNumber,
                               request.service, support64));
    && request.path == old(request.path) && request.service == old(request.service)
    && response.replyService == ReplyService(request.service)
    && response.generalStatus == reply.status
    && response.sizeOfAdditionalStatus == 0
    && response.dataLength == reply.count
    && response.data == old(response.data)
    && response.buffer[..] == if reply.bytes == [] then old(response.buffer[..])
                              else Splice(old(response.buffer[..]), old(response.data), reply.bytes)
  }

  /** GetAttributeSingle: looks up the attribute the request path names and,
      when it is getable under the request's service, encodes its value at the
      reply position; the status says whether it was sent. The assembly
      object's pre-send hook is not part of this model. */
  method GetAttributeSingle(inst: CipInstance, request: Request, response: Response, support64: bool)
    returns (status: EipStatus)
    requires inst.Shaped() && SlotsFitWith(inst.attributes[..], FieldsOf(inst))
    requires response.data
             + |SingleGet(inst.attributes[..], FieldsOf(inst), request.path.attributeNumber, request.service, support64).bytes|
             <= response.buffer.Length
    modifies response`replyService, response`generalStatus, response`sizeOfAdditionalStatus,
             response`dataLength, response.buffer
    ensures status == StatusOkSend && SingleGetDone(inst, request, response, support64)
  {
    ghost var reply := SingleGet(inst.attributes[..], FieldsOf(inst), request.path.attributeNumber,
                                 request.service, support64);
    var index := inst.GetCipAttribute(request.path.attributeNumber);
    var found := if index.Some? then Some(inst.attributes[index.value]) else None;
    var fields := FieldsOf(inst);
    assert reply == if found.Some? && !found.value.data.NoData? && found.value.flags & GetMask(request.service) != 0
                    then Sent(found.value, fields, support64) else Refused(request.service);
    var mask := StartReply(request, response);
    if found.Some? && !found.value.data.NoData? && found.value.flags & mask != 0 {
      SendAttribute(found.value, fields, response, support64);
    }
    return StatusOkSend;
  }

  /** The reply header GetAttributeSingle starts from: no data, the reply
      service code, and success under the GetAttributeAll service code or
      "attribute not supported" under any other; returns the flag the
      attribute needs. */
  method StartReply(request: Request, response: Response) returns (mask: bv8)
    modifies response`replyService, response`generalStatus, response`sizeOfAdditionalStatus, response`dataLength
    ensures mask == GetMask(request.service)
    ensures response.dataLength == Refused(request.service).count
    ensures response.generalStatus == Refused(request.service).status
    ensures response.replyService == ReplyService(request.service) && response.sizeOfAdditionalStatus == 0
  {
    response.dataLength := 0;
    response.replyService := ReplyService(request.service);
    response.generalStatus := AttributeNotSupported;
    response.sizeOfAdditionalStatus := 0;
    if request.service == GetAttributeAllService {
      mask := GetableAll;
      response.generalStatus := Success;
    } else {
      mask := GetableSingle;
    }
  }

  /** The sending branch of GetAttributeSingle: the value encoded at the
      reply position, its length as the data length, and success. */
  method SendAttribute(slot: AttributeSlot, fields: Option<ClassFieldValues>, response: Response, support64: bool)
    requires SlotFits(slot) && !slot.data.NoData? && (slot.data.Live? ==> fields.Some?)
    requires response.data + |Sent(slot, fields, support64).bytes| <= response.buffer.Length
    modifies response`dataLength, response`generalStatus, response.buffer
    ensures var reply := Sent(slot, fields, support64);
            && response.dataLength == reply.count && response.generalStatus == reply.status
            && response.buffer[..] == if reply.bytes == [] then old(response.buffer[..])
                                      else Splice(old(response.buffer[..]), response.data, reply.bytes)
  {
    var value := AttributeValue(slot, fields);
    var count, next := EncodeData(slot.cipType, value, support64, response.buffer, response.data);
    response.dataLength := count;
    response.generalStatus := Success;
  }

  /** Whether GetAttributeAll asks for an attribute: its number is below 32
      and its bit is set in the class's get-all mask. */
  predicate InGetAllMask(number: uint16, mask: bv32) {
    number < 32 && Bit(mask, number)
  }

  /** Bit n of a mask, the one `1 << n` selects. */
  predicate Bit(mask: bv32, n: nat)
    requires n < 32
    decreases n
  {
    if n == 0 then mask & 1 != 0 else Bit(mask >> 1, n - 1)
  }

  /** The attribute numbers GetAttributeAll asks for among the first j
      slots of the table, in table order. */
  function Asked(slots: seq<AttributeSlot>, mask: bv32, j: nat): (r: seq<uint16>)
    requires j <= |slots|
    ensures |r| <= j
    decreases j
  {
    if j == 0 then []
    else Asked(slots, mask, j - 1) + if InGetAllMask(slots[j - 1].number, mask) then [slots[j - 1].number] else []
  }

  /** The replies of the GetAttributeSingle calls GetAttributeAll makes over
      the first j slots of the table, one per number asked for. */
  function Collected(slots: seq<AttributeSlot>, fields: Option<ClassFieldValues>, mask: bv32, j: nat,
                     service: uint8, support64: bool): (r: seq<Reply>)
    requires SlotsFitWith(slots, fields) && j <= |slots|
    ensures |r| == |Asked(slots, mask, j)|
    decreases j
  {
    if j == 0 then []
    else Collected(slots, fields, mask, j - 1, service, support64)
         + if InGetAllMask(slots[j - 1].number, mask)
           then [SingleGet(slots, fields, slots[j - 1].number, service, support64)] else []
  }

  /** The sum of the data lengths, by which GetAttributeAll advances. */
  function SumCounts(rs: seq<Reply>): nat {
    if rs == [] then 0 else SumCounts(rs[..|rs| - 1]) + rs[|rs| - 1].count
  }

  /** The bytes of the replies, one after the other. */
  function Concat(rs: seq<Reply>): seq<uint8> {
    if rs == [] then [] else Concat(rs[..|rs| - 1]) + rs[|rs| - 1].bytes
  }

  /** Whether each reply, written at `at` plus the data lengths before it,
      fits in a buffer of `len` bytes. */
  predicate Room(at: nat, rs: seq<Reply>, len: nat) {
    rs == [] || (Room(at, rs[..|rs| - 1], len) && at + SumCounts(rs[..|rs| - 1]) + |rs[|rs| - 1].bytes| <= len)
  }

  /** The buffer after writing each reply at `at` plus the data lengths
      before it. */
  function ApplyWrites(s: seq<uint8>, at: nat, rs: seq<Reply>): (r: seq<uint8>)
    requires Room(at, rs, |s|)
    ensures |r| == |s|
  {
    if rs == [] then s
    else Splice(ApplyWrites(s, at, rs[..|rs| - 1]), at + SumCounts(rs[..|rs| - 1]), rs[|rs| - 1].bytes)
  }

  /** One more reply adds its data length, needs room for its bytes at the
      end of the others, and is written there. */
  lemma AppendReply(s: seq<uint8>, at: nat, rs: seq<Reply>, r: Reply)
    ensures SumCounts(rs + [r]) == SumCounts(rs) + r.count
    ensures Room(at, rs + [r], |s|) <==> Room(at, rs, |s|) && at + SumCounts(rs) + |r.bytes| <= |s|
    ensures Room(at, rs + [r], |s|) ==>
              ApplyWrites(s, at, rs + [r]) == Splice(ApplyWrites(s, at, rs), at + SumCounts(rs), r.bytes)
  {
    assert (rs + [r])[..|rs|] == rs;
  }

  /** Whether the GetAttributeSingle service of a class, the first slot
      numbered 0x0E, is the generic one: GetAttributeAll calls it through the
      slot's function pointer. */
  predicate GetSingleIsGeneric(services: seq<ServiceSlot>) {
    match FindService(services, GetAttributeSingleService)
    case None => true
    case Some(i) => services[i].handler == Some(GetAttributeSingleHandler)
  }

  /** Room for all the replies is room for the replies over a prefix of the
      table. */
  lemma {:induction false} RoomUpTo(slots: seq<AttributeSlot>, fields: Option<ClassFieldValues>, mask: bv32,
                                    j: nat, n: nat, service: uint8, support64: bool, at: nat, len: nat)
    requires SlotsFitWith(slots, fields) && j <= n <= |slots|
    requires Room(at, Collected(slots, fields, mask, n, service, support64), len)
    ensures Room(at, Collected(slots, fields, mask, j, service, support64), len)
    decreases n - j
  {
    if j < n {
      var rs := Collected(slots, fields, mask, n - 1, service, support64);
      if InGetAllMask(slots[n - 1].number, mask) {
        assert (rs + [SingleGet(slots, fields, slots[n - 1].number, service, support64)])[..|rs|] == rs;
      } else {
        assert rs + [] == rs;
      }
      RoomUpTo(slots, fields, mask, j, n - 1, service, support64, at, len);
    }
  }

  /** The reply header fields and the request path the services change. */
  datatype Header = Header(replyService: uint8, generalStatus: uint8, sizeOfAdditionalStatus: nat, path: EPath)

  /** The header GetAttributeAll leaves: the starting one when the mask names
      no attribute, otherwise that of the last GetAttributeSingle call, with
      the request path naming the last attribute asked for. */
  function HeaderAfterGetAll(start: Header, service: uint8, numbers: seq<uint16>, replies: seq<Reply>): (h: Header)
    requires |replies| == |numbers|
    ensures numbers == [] ==> h == start
    ensures numbers != [] ==> h.path.attributeNumber == numbers[|numbers| - 1]
                              && h.generalStatus == replies[|replies| - 1].status
  {
    if numbers == [] then start
    else Header(ReplyService(service), replies[|replies| - 1].status, 0,
                start.path.(attributeNumber := numbers[|numbers| - 1]))
  }

  /** The state of GetAttributeAll after asking for `numbers` and getting
      `replies`: the reply position has moved by their data lengths, each was
      written where the previous one's data length ended, and the header is
      that of the last one. */
  ghost predicate Progress(start: Header, service: uint8, at: nat, origin: seq<uint8>, numbers: seq<uint16>,
                           replies: seq<Reply>, data: nat, buffer: seq<uint8>, header: Header)
    requires |numbers| == |replies|
  {
    && data == at + SumCounts(replies)
    && Room(at, replies, |origin|)
    && buffer == ApplyWrites(origin, at, replies)
    && header == HeaderAfterGetAll(start, service, numbers, replies)
  }

  /** One more reply, with room for it, moves the state on: its bytes are
      written at the reply position, which moves by its data length, and the
      header becomes its own with the path naming its attribute. */
  lemma ProgressAppend(start: Header, service: uint8, at: nat, origin: seq<uint8>, numbers: seq<uint16>,
                       replies: seq<Reply>, data: nat, buffer: seq<uint8>, header: Header, n: uint16, r: Reply)
    requires |numbers| == |replies| && Room(at, replies + [r], |origin|)
    requires Progress(start, service, at, origin, numbers, replies, data, buffer, header)
    ensures data + |r.bytes| <= |buffer|
    ensures Progress(start, service, at, origin, numbers + [n], replies + [r], data + r.count,
                     Splice(buffer, data, r.bytes), Header(ReplyService(service), r.status, 0,
                                                           header.path.(attributeNumber := n)))
  {
    AppendReply(origin, at, replies, r);
  }

  /** A slot the mask does not name adds no number and no reply. */
  lemma GetAllSkip(slots: seq<AttributeSlot>, fields: Option<ClassFieldValues>, mask: bv32, j: nat,
                   service: uint8, support64: bool)
    requires SlotsFitWith(slots, fields) && j < |slots| && !InGetAllMask(slots[j].number, mask)
    ensures Asked(slots, mask, j + 1) == Asked(slots, mask, j)
    ensures Collected(slots, fields, mask, j + 1, service, support64) == Collected(slots, fields, mask, j, service, support64)
  {
    var rs := Collected(slots, fields, mask, j, service, support64);
    assert rs + [] == rs;
    var numbers := Asked(slots, mask, j);
    assert numbers + [] == numbers;
  }

  /** A slot the mask names adds its number and the reply of
      GetAttributeSingle for it, and room for all the replies is room for
      those so far. */
  lemma GetAllAsk(slots: seq<AttributeSlot>, fields: Option<ClassFieldValues>, mask: bv32, j: nat,
                  service: uint8, support64: bool, at: nat, len: nat)
    requires SlotsFitWith(slots, fields) && j < |slots| && InGetAllMask(slots[j].number, mask)
    requires Room(at, Collected(slots, fields, mask, |slots|, service, support64), len)
    ensures Asked(slots, mask, j + 1) == Asked(slots, mask, j) + [slots[j].number]
    ensures Collected(slots, fields, mask, j + 1, service, support64)
            == Collected(slots, fields, mask, j, service, support64)
               + [SingleGet(slots, fields, slots[j].number, service, support64)]
    ensures Room(at, Collected(slots, fields, mask, j + 1, service, support64), len)
  {
    RoomUpTo(slots, fields, mask, j + 1, |slots|, service, support64, at, len);
  }

  /** The reply header of an error: no data, no additional status, the
      reply service code and the given general status. */
  method ErrorReply(request: Request, response: Response, generalStatus: uint8)
    modifies response`replyService, response`generalStatus, response`sizeOfAdditionalStatus, response`dataLength
    ensures response.dataLength == 0 && response.sizeOfAdditionalStatus == 0
    ensures response.replyService == ReplyService(request.service) && response.generalStatus == generalStatus
  {
    response.generalStatus := generalStatus;
    response.sizeOfAdditionalStatus := 0;
    response.dataLength := 0;
    response.replyService := ReplyService(request.service);
  }

  /** Nothing of the request or the reply has changed. */
  twostate predicate Untouched(request: Request, response: Response)
    reads request, response, response.buffer
  {
    && request.path == old(request.path) && request.service == old(request.service)
    && response.replyService == old(response.replyService) && response.generalStatus == old(response.generalStatus)
    && response.sizeOfAdditionalStatus == old(response.sizeOfAdditionalStatus)
    && response.dataLength == old(response.dataLength) && response.data == old(response.data)
    && response.buffer[..] == old(response.buffer[..])
  }

  /** An error reply was made with this general status, and nothing else
      changed. */
  twostate predicate ErrorReplied(request: Request, response: Response, generalStatus: uint8)
    reads request, response, response.buffer
  {
    && response.dataLength == 0 && response.sizeOfAdditionalStatus == 0
    && response.replyService == ReplyService(request.service) && response.generalStatus == generalStatus
    && request.path == old(request.path) && request.service == old(request.service)
    && response.data == old(response.data) && response.buffer[..] == old(response.buffer[..])
  }

  /** What the attribute loop of GetAttributeAll leaves: the reply position
      restored, the data length the sum of the replies' data lengths, each
      reply written where the previous one's data length ended, and the header
      of the last one. */
  twostate predicate CollectedAll(inst: CipInstance, request: Request, response: Response, support64: bool)
    requires old(SlotsFitWith(inst.attributes[..], FieldsOf(inst)))
    reads request, response, response.buffer
  {
    var numbers := old(Asked(inst.attributes[..], inst.owner.getAttributeAllMask, inst.attributes.Length));
    var replies := old(Collected(inst.attributes[..], FieldsOf(inst), inst.owner.getAttributeAllMask,
                                 inst.attributes.Length, request.service, support64));
    && request.service == old(request.service)
    && response.data == old(response.data)
    && response.dataLength == SumCounts(replies)
    && Room(old(response.data), replies, |old(response.buffer[..])|)
    && response.buffer[..] == ApplyWrites(old(response.buffer[..]), old(response.data), replies)
    && Header(response.replyService, response.generalStatus, response.sizeOfAdditionalStatus, request.path)
       == HeaderAfterGetAll(old(Header(response.replyService, response.generalStatus,
                                       response.sizeOfAdditionalStatus, request.path)),
                            request.service, numbers, replies)
  }

  /** What GetAttributeAll does: without a GetAttributeSingle service,
      nothing; without attributes, a "service not supported" reply; otherwise
      the replies of its attribute loop. */
  twostate predicate GetAllDone(inst: CipInstance, request: Request, response: Response, support64: bool,
                                status: EipStatus)
    requires old(SlotsFitWith(inst.attributes[..], FieldsOf(inst)))
    reads request, response, response.buffer
  {
    match old(FindService(inst.owner.services[..], GetAttributeSingleService))
    case None => status == StatusOk && Untouched(request, response)
    case Some(_) =>
      && status == StatusOkSend
      && (inst.owner.numberOfAttributes == 0 ==> ErrorReplied(request, response, ServiceNotSupported))
      && (inst.owner.numberOfAttributes > 0 ==> CollectedAll(inst, request, response, support64))
  }

  /** GetAttributeAll: finds the class's GetAttributeSingle service and, when
      the class has attributes, calls it for every attribute slot whose number
      the get-all mask names, each reply written where the previous one's data
      length ends; the data length is then the sum of theirs and the reply
      position is restored. Without a GetAttributeSingle service it does
      nothing; without attributes it replies "service not supported". */
  method GetAttributeAll(inst: CipInstance, request: Request, response: Response, support64: bool)
    returns (status: EipStatus)
    requires inst.Shaped() && SlotsFitWith(inst.attributes[..], FieldsOf(inst))
    requires GetSingleIsGeneric(inst.owner.services[..])
    requires Room(response.data, Collected(inst.attributes[..], FieldsOf(inst), inst.owner.getAttributeAllMask,
                                           inst.attributes.Length, request.service, support64),
                  response.buffer.Length)
    modifies request`path, response`replyService, response`generalStatus, response`sizeOfAdditionalStatus,
             response`dataLength, response`data, response.buffer
    ensures GetAllDone(inst, request, response, support64, status)
  {
    var found := inst.owner.FindServiceSlot(GetAttributeSingleService);
    if found.None? {
      return StatusOk;
    }
    if inst.owner.numberOfAttributes == 0 {
      ErrorReply(request, response, ServiceNotSupported);
    } else {
      GetAllLoop(inst, request, response, support64);
    }
    return StatusOkSend;
  }

  /** The attribute loop of GetAttributeAll, with the reply position saved
      before it and restored after it. */
  method GetAllLoop(inst: CipInstance, request: Request, response: Response, support64: bool)
    requires inst.Shaped() && SlotsFitWith(inst.attributes[..], FieldsOf(inst))
    requires Room(response.data, Collected(inst.attributes[..], FieldsOf(inst), inst.owner.getAttributeAllMask,
                                           inst.attributes.Length, request.service, support64),
                  response.buffer.Length)
    modifies request`path, response`replyService, response`generalStatus, response`sizeOfAdditionalStatus,
             response`dataLength, response`data, response.buffer
    ensures CollectedAll(inst, request, response, support64)
  {
    ghost var slots := inst.attributes[..];
    ghost var fields := FieldsOf(inst);
    ghost var service := request.service;
    ghost var origin := response.buffer[..];
    ghost var start := Header(response.replyService, response.generalStatus, response.sizeOfAdditionalStatus,
                              request.path);
    var reply := response.data;
    var mask := inst.owner.getAttributeAllMask;
    var j := 0;
    while j < inst.owner.numberOfAttributes
      invariant 0 <= j <= |slots|
      invariant inst.attributes[..] == slots && FieldsOf(inst) == fields && request.service == service
      invariant Progress(start, service, reply, origin, Asked(slots, mask, j),
                         Collected(slots, fields, mask, j, service, support64), response.data, response.buffer[..],
                         Header(response.replyService, response.generalStatus, response.sizeOfAdditionalStatus,
                                request.path))
    {
      GetAllNext(inst, request, response, support64, j, mask, start, reply, origin);
      j := j + 1;
    }
    response.dataLength := response.data - reply;
    response.data := reply;
  }

  /** The step of GetAttributeAll for slot j: when the mask names its
      number, GetAttributeSingle replies to it. */
  method GetAllNext(inst: CipInstance, request: Request, response: Response, support64: bool, j: nat,
                    mask: bv32, ghost start: Header, ghost at: nat, ghost origin: seq<uint8>)
    requires inst.Shaped() && SlotsFitWith(inst.attributes[..], FieldsOf(inst)) && j < inst.attributes.Length
    requires Room(at, Collected(inst.attributes[..], FieldsOf(inst), mask, inst.attributes.Length, request.service,
                                support64), |origin|)
    requires Progress(start, request.service, at, origin, Asked(inst.attributes[..], mask, j),
                      Collected(inst.attributes[..], FieldsOf(inst), mask, j, request.service, support64),
                      response.data, response.buffer[..],
                      Header(response.replyService, response.generalStatus, response.sizeOfAdditionalStatus,
                             request.path))
    modifies request`path, response`replyService, response`generalStatus, response`sizeOfAdditionalStatus,
             response`dataLength, response`data, response.buffer
    ensures inst.attributes[..] == old(inst.attributes[..]) && FieldsOf(inst) == old(FieldsOf(inst))
    ensures request.service == old(request.service)
    ensures Progress(start, request.service, at, origin, Asked(inst.attributes[..], mask, j + 1),
                     Collected(inst.attributes[..], FieldsOf(inst), mask, j + 1, request.service, support64),
                     response.data, response.buffer[..],
                     Header(response.replyService, response.generalStatus, response.sizeOfAdditionalStatus,
                            request.path))
  {
    ghost var slots := inst.attributes[..];
    ghost var fields := FieldsOf(inst);
    var number := inst.attributes[j].number;
    if InGetAllMask(number, mask) {
      GetAllAsk(slots, fields, mask, j, request.service, support64, at, |origin|);
      ProgressAppend(start, request.service, at, origin, Asked(slots, mask, j),
                     Collected(slots, fields, mask, j, request.service, support64), response.data,
                     response.buffer[..], Header(response.replyService, response.generalStatus,
                                                 response.sizeOfAdditionalStatus, request.path),
                     number, SingleGet(slots, fields, number, request.service, support64));
      GetAllStep(inst, request, response, support64, number);
    } else {
      GetAllSkip(slots, fields, mask, j, request.service, support64);
    }
  }

  /** One attribute of GetAttributeAll: the request path names it, the
      GetAttributeSingle service replies to it, and the reply position moves
      past its data length. */
  method GetAllStep(inst: CipInstance, request: Request, response: Response, support64: bool, number: uint16)
    requires inst.Shaped() && SlotsFitWith(inst.attributes[..], FieldsOf(inst))
    requires response.data
             + |SingleGet(inst.attributes[..], FieldsOf(inst), number, request.service, support64).bytes|
             <= response.buffer.Length
    modifies request`path, response`replyService, response`generalStatus, response`sizeOfAdditionalStatus,
             response`dataLength, response`data, response.buffer
    ensures inst.attributes[..] == old(inst.attributes[..]) && FieldsOf(inst) == old(FieldsOf(inst))
    ensures request.service == old(request.service)
    ensures request.path == old(request.path).(attributeNumber := number)
    ensures var reply := old(SingleGet(inst.attributes[..], FieldsOf(inst), number, request.service, support64));
            && response.replyService == ReplyService(request.service)
            && response.generalStatus == reply.status
            && response.sizeOfAdditionalStatus == 0
            && response.data == old(response.data) + reply.count
            && response.buffer[..] == Splice(old(response.buffer[..]), old(response.data), reply.bytes)
  {
    request.path := request.path.(attributeNumber := number);
    var single := GetAttributeSingle(inst, request, response, support64);
    response.data := response.data + response.dataLength;
  }

  /** How NotifyClass ended: a reply was made here or by one of the generic
      services, with this status; or the request went to a service handler
      of another object's code; or the service slot found had no handler. */
  datatype Dispatched = Handled(status: EipStatus) | ForeignHandler(id: nat) | NullHandler

  /** The instance a request's path names: the class object for instance 0,
      otherwise the first instance of the class with that number, or none. */
  function InstanceFor(cls: CipClass, number: uint16): (r: CipInstance?)
    reads cls, cls.instances
    ensures number == 0 ==> r == cls.classObject
    ensures number != 0 && r != null ==> r in cls.instances && r.instanceNumber == number
    ensures number != 0 && r == null ==> forall i :: 0 <= i < |cls.instances| ==> cls.instances[i].instanceNumber != number
  {
    if number == 0 then cls.classObject
    else match FirstIndexOf(NumbersOf(cls.instances), number)
      case None => null
      case Some(i) => cls.instances[i]
  }

  /** What a generic service needs of the instance and the reply buffer
      when the request reaches it: a well-formed attribute table and room
      for what it writes. Other handlers need nothing. */
  predicate Serves(inst: CipInstance, request: Request, response: Response, support64: bool)
    reads inst, inst.owner, inst.owner.services, inst.attributes, inst.describes, request, response
  {
    match FindService(inst.owner.services[..], request.service)
    case None => true
    case Some(k) =>
      match inst.owner.services[k].handler
      case Some(GetAttributeSingleHandler) =>
        && inst.Shaped() && SlotsFitWith(inst.attributes[..], FieldsOf(inst))
        && response.data + |SingleGet(inst.attributes[..], FieldsOf(inst), request.path.attributeNumber,
                                      request.service, support64).bytes| <= response.buffer.Length
      case Some(GetAttributeAllHandler) =>
        && inst.Shaped() && SlotsFitWith(inst.attributes[..], FieldsOf(inst))
        && GetSingleIsGeneric(inst.owner.services[..])
        && Room(response.data, Collected(inst.attributes[..], FieldsOf(inst), inst.owner.getAttributeAllMask,
                                         inst.attributes.Length, request.service, support64),
                response.buffer.Length)
      case _ => true
  }

  /** NotifyClass: finds the instance the request path names and, in its
      class's service table, the first slot with the request's service code,
      and runs that slot's handler. An unknown instance gets a "path
      destination unknown" reply and an unknown service a "service not
      supported" reply. */
  method NotifyClass(cls: CipClass, request: Request, response: Response, support64: bool)
    returns (outcome: Dispatched)
    requires var inst := InstanceFor(cls, request.path.instanceNumber);
             inst != null ==> inst.owner.Shaped() && Serves(inst, request, response, support64)
    modifies request`path, response`replyService, response`generalStatus, response`sizeOfAdditionalStatus,
             response`dataLength, response`data, response.buffer
    ensures old(InstanceFor(cls, request.path.instanceNumber)) == null ==>
              outcome == Handled(StatusOkSend) && ErrorReplied(request, response, PathDestinationUnknown)
    ensures var inst := old(InstanceFor(cls, request.path.instanceNumber));
            inst != null ==>
              match old(FindService(inst.owner.services[..], request.service))
              case None => outcome == Handled(StatusOkSend) && ErrorReplied(request, response, ServiceNotSupported)
              case Some(k) =>
                match old(inst.owner.services[k].handler)
                case None => outcome == NullHandler && Untouched(request, response)
                case Some(ObjectHandler(id)) => outcome == ForeignHandler(id) && Untouched(request, response)
                case Some(GetAttributeSingleHandler) =>
                  outcome == Handled(StatusOkSend) && SingleGetDone(inst, request, response, support64)
                case Some(GetAttributeAllHandler) =>
                  outcome.Handled? && GetAllDone(inst, request, response, support64, outcome.status)
  {
    var inst := cls.GetCipInstance(request.path.instanceNumber);
    if inst == null {
      ErrorReply(request, response, PathDestinationUnknown);
      return Handled(StatusOkSend);
    }
    var found := inst.owner.FindServiceSlot(request.service);
    if found.None? {
      ErrorReply(request, response, ServiceNotSupported);
      return Handled(StatusOkSend);
    }
    match inst.owner.services[found.value].handler
    case None =>
      return NullHandler;
    case Some(ObjectHandler(id)) =>
      return ForeignHandler(id);
    case Some(GetAttributeSingleHandler) =>
      var status := GetAttributeSingle(inst, request, response, support64);
      return Handled(status);
    case Some(GetAttributeAllHandler) =>
      var status := GetAttributeAll(inst, request, response, support64);
      return Handled(status);
  }
}
