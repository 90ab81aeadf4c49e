/** What the generic services and the dispatcher promise, stated over the
    specification functions their methods are proved against: the status and
    bytes of GetAttributeSingle, which attributes GetAttributeAll asks for and
    how their replies line up in the reply buffer, the replies of the class
    attributes CreateCipClass inserts, and the service lookups of a class
    CreateCipClass made. */
module DispatchProperties {
  import opened CipTypes
  import opened EndianConv
  import opened AttributeCodec
  import PathCodec
  import opened Registry
  import opened Dispatch

  /** GetAttributeSingle reports success exactly when the attribute is sent or
      the service code is GetAttributeAll's, and "attribute not supported"
      exactly otherwise; nothing is written unless the attribute is sent, and
      then its value's encoding is. */
  lemma SingleGetStatus(slots: seq<AttributeSlot>, fields: Option<ClassFieldValues>, number: uint16,
                        service: uint8, support64: bool)
    requires SlotsFitWith(slots, fields)
    ensures var r := SingleGet(slots, fields, number, service, support64);
            && (r.status == Success <==> service == GetAttributeAllService || Getable(slots, number, service))
            && (r.status == AttributeNotSupported <==> service != GetAttributeAllService && !Getable(slots, number, service))
            && (!Getable(slots, number, service) ==> r.count == 0 && r.bytes == [])
    ensures Getable(slots, number, service) ==>
              var slot := slots[FindAttribute(slots, number).value];
              var r := SingleGet(slots, fields, number, service, support64);
              r.bytes == Encoding(slot.cipType, AttributeValue(slot, fields), support64)
              && r.count == EncodedCount(slot.cipType, AttributeValue(slot, fields), support64)
  {
  }

  /** What GetAttributeSingle writes for a type DecodeData reads, DecodeData
      reads back as the attribute's value, consuming the data length
      reported, whatever follows in the buffer. */
  lemma SingleGetReadsBack(slots: seq<AttributeSlot>, fields: Option<ClassFieldValues>, number: uint16,
                           service: uint8, support64: bool, rest: seq<uint8>)
    requires SlotsFitWith(slots, fields) && Getable(slots, number, service)
    requires Decodable(slots[FindAttribute(slots, number).value].cipType, support64)
    ensures var slot := slots[FindAttribute(slots, number).value];
            var r := SingleGet(slots, fields, number, service, support64);
            Decoding(slot.cipType, r.bytes + rest, support64) == Decoded(AttributeValue(slot, fields), r.count)
  {
    var i := FindAttribute(slots, number).value;
    var slot := SlotAt(slots, i);
    assert SlotFitsWith(slot, fields);
    var v := AttributeValue(slot, fields);
    DecodeEncodeRoundTrip(slot.cipType, v, support64, rest);
    CountAndCursorAgainstBytesWritten(slot.cipType, v, support64);
  }

  /** A reply whose data length is the number of bytes it wrote. */
  predicate Honest(r: Reply) {
    r.count == |r.bytes|
  }

  /** No attribute of the table has the EPATH type, the one type whose
      data length may differ from the bytes written. */
  predicate NoPathAttributes(slots: seq<AttributeSlot>) {
    forall i :: 0 <= i < |slots| ==> LayoutOf(slots[i].cipType) != PathLayout
  }

  /** Without EPATH attributes, every reply of GetAttributeSingle reports
      the bytes it wrote as its data length. */
  lemma SingleGetHonest(slots: seq<AttributeSlot>, fields: Option<ClassFieldValues>, number: uint16,
                        service: uint8, support64: bool)
    requires SlotsFitWith(slots, fields) && NoPathAttributes(slots)
    ensures Honest(SingleGet(slots, fields, number, service, support64))
  {
    if Getable(slots, number, service) {
      var i := FindAttribute(slots, number).value;
      var slot := SlotAt(slots, i);
      assert SlotFitsWith(slot, fields);
      CountAndCursorAgainstBytesWritten(slot.cipType, AttributeValue(slot, fields), support64);
    }
  }

  /** Replies that report the bytes they wrote, each written where the
      previous one's data length ended, amount to one write of their bytes
      one after the other, and the data lengths add up to its length. */
  lemma {:induction false} HonestRepliesConcatenate(s: seq<uint8>, at: nat, rs: seq<Reply>)
    requires forall k :: 0 <= k < |rs| ==> Honest(rs[k])
    requires Room(at, rs, |s|) && at <= |s|
    ensures SumCounts(rs) == |Concat(rs)| && at + |Concat(rs)| <= |s|
    ensures ApplyWrites(s, at, rs) == Splice(s, at, Concat(rs))
    decreases |rs|
  {
    if rs != [] {
      var init := rs[..|rs| - 1];
      var last := rs[|rs| - 1];
      assert forall k :: 0 <= k < |init| ==> init[k] == rs[k];
      HonestRepliesConcatenate(s, at, init);
      assert Honest(last) && Concat(rs) == Concat(init) + last.bytes;
      SpliceTwice(s, at, Concat(init), last.bytes);
    }
  }

  /** GetAttributeAll asks for attribute n among the first j slots exactly
      when one of them has number n and the mask names n. */
  lemma {:induction false} AskedExactly(slots: seq<AttributeSlot>, mask: bv32, j: nat, n: uint16)
    requires j <= |slots|
    ensures n in Asked(slots, mask, j) <==> exists i :: 0 <= i < j && slots[i].number == n && InGetAllMask(n, mask)
    decreases j
  {
    if j > 0 {
      AskedExactly(slots, mask, j - 1, n);
      if slots[j - 1].number == n && InGetAllMask(n, mask) {
        assert n in Asked(slots, mask, j);
      }
    }
  }

  /** The k-th reply GetAttributeAll collects is GetAttributeSingle's reply to
      the k-th number it asks for. */
  lemma {:induction false} CollectedAnswersAsked(slots: seq<AttributeSlot>, fields: Option<ClassFieldValues>,
                                                 mask: bv32, j: nat, service: uint8, support64: bool)
    requires SlotsFitWith(slots, fields) && j <= |slots|
    ensures forall k :: 0 <= k < |Collected(slots, fields, mask, j, service, support64)| ==>
              Collected(slots, fields, mask, j, service, support64)[k]
              == SingleGet(slots, fields, Asked(slots, mask, j)[k], service, support64)
    decreases j
  {
    if j > 0 {
      CollectedAnswersAsked(slots, fields, mask, j - 1, service, support64);
      var n := slots[j - 1].number;
      if !InGetAllMask(n, mask) {
        var numbers := Asked(slots, mask, j - 1);
        var replies := Collected(slots, fields, mask, j - 1, service, support64);
        assert numbers + [] == numbers && replies + [] == replies;
      }
    }
  }

  /** Without EPATH attributes, GetAttributeAll writes the replies' bytes one
      after the other from the reply position, and its data length is their
      total length. */
  lemma GetAllConcatenates(slots: seq<AttributeSlot>, fields: Option<ClassFieldValues>, mask: bv32,
                           service: uint8, support64: bool, s: seq<uint8>, at: nat)
    requires SlotsFitWith(slots, fields) && NoPathAttributes(slots)
    requires Room(at, Collected(slots, fields, mask, |slots|, service, support64), |s|) && at <= |s|
    ensures var rs := Collected(slots, fields, mask, |slots|, service, support64);
            && SumCounts(rs) == |Concat(rs)| && at + |Concat(rs)| <= |s|
            && ApplyWrites(s, at, rs) == Splice(s, at, Concat(rs))
  {
    var numbers := Asked(slots, mask, |slots|);
    var rs := Collected(slots, fields, mask, |slots|, service, support64);
    CollectedAnswersAsked(slots, fields, mask, |slots|, service, support64);
    forall k | 0 <= k < |rs|
      ensures Honest(rs[k])
    {
      SingleGetHonest(slots, fields, numbers[k], service, support64);
    }
    HonestRepliesConcatenate(s, at, rs);
  }

  /** Bit n of the mask, as GetAttributeAll tests it: `mask & (1 << n)`. */
  lemma {:induction false} BitIsShiftedMask(mask: bv32, n: nat)
    requires n < 32
    ensures Bit(mask, n) <==> mask & ((1 as bv32) << n) != 0
    decreases n
  {
    if n > 0 {
      BitIsShiftedMask(mask >> 1, n - 1);
      ShiftedMaskStep(mask, n);
    }
  }

  /** Testing bit n - 1 of the mask shifted right by one tests bit n. The
      case analysis gives the solver a constant shift in each branch. */
  lemma ShiftedMaskStep(mask: bv32, n: nat)
    requires 0 < n < 32
    ensures (mask >> 1) & ((1 as bv32) << (n - 1)) != 0 <==> mask & ((1 as bv32) << n) != 0
  {
    if n == 1 { } else if n == 2 { } else if n == 3 { } else if n == 4 { } else
    if n == 5 { } else if n == 6 { } else if n == 7 { } else if n == 8 { } else
    if n == 9 { } else if n == 10 { } else if n == 11 { } else if n == 12 { } else
    if n == 13 { } else if n == 14 { } else if n == 15 { } else if n == 16 { } else
    if n == 17 { } else if n == 18 { } else if n == 19 { } else if n == 20 { } else
    if n == 21 { } else if n == 22 { } else if n == 23 { } else if n == 24 { } else
    if n == 25 { } else if n == 26 { } else if n == 27 { } else if n == 28 { } else
    if n == 29 { } else if n == 30 { } else if n == 31 { }
  }

  /** The attribute table of a class object CreateCipClass made: class
      attributes 1 to 7, then `free` zero-filled slots. */
  function ClassObjectSlots(free: nat): seq<AttributeSlot> {
    StandardClassAttributes() + FreeAttributeSlots(free)
  }

  /** Class attribute n, from 1 to 7, is found in slot n - 1. */
  lemma FindStandardAttribute(free: nat, n: uint16)
    requires 1 <= n <= 7
    ensures FindAttribute(ClassObjectSlots(free), n) == Some(n - 1)
  {
    var slots := ClassObjectSlots(free);
    assert slots[n - 1].number == n;
    var r := FindAttribute(slots, n);
    assert forall i :: 0 <= i < 7 ==> slots[i].number == i + 1;
  }

  /** What GetAttributeSingle replies for the class attributes of a class
      object CreateCipClass made: the revision (1), the instance counter (2
      and 3), and the highest class and instance attribute numbers (6 and 7),
      each as a 16-bit word under any service code; attributes 4 and 5, which
      are getable only through GetAttributeAll, read as 0 there and are
      refused otherwise; any other number, 0 included, is refused. */
  lemma StandardClassAttributeReplies(fields: ClassFieldValues, free: nat, service: uint8, support64: bool)
    ensures SlotsFitWith(ClassObjectSlots(free), Some(fields))
    ensures SingleGet(ClassObjectSlots(free), Some(fields), 1, service, support64)
            == Reply(Success, 2, LittleEndian(fields.revision, 2))
    ensures SingleGet(ClassObjectSlots(free), Some(fields), 2, service, support64)
            == SingleGet(ClassObjectSlots(free), Some(fields), 3, service, support64)
            == Reply(Success, 2, LittleEndian(fields.numberOfInstances, 2))
    ensures SingleGet(ClassObjectSlots(free), Some(fields), 6, service, support64)
            == Reply(Success, 2, LittleEndian(fields.classHighest, 2))
    ensures SingleGet(ClassObjectSlots(free), Some(fields), 7, service, support64)
            == Reply(Success, 2, LittleEndian(fields.instanceHighest, 2))
    ensures SingleGet(ClassObjectSlots(free), Some(fields), 4, service, support64)
            == SingleGet(ClassObjectSlots(free), Some(fields), 5, service, support64)
            == if service == GetAttributeAllService then Reply(Success, 2, [0, 0]) else Refused(service)
    ensures forall n: uint16 :: n == 0 || n > 7 ==>
              SingleGet(ClassObjectSlots(free), Some(fields), n, service, support64) == Refused(service)
  {
    var slots := ClassObjectSlots(free);
    forall i | 0 <= i < |slots|
      ensures SlotFitsWith(SlotAt(slots, i), Some(fields))
    {
      if i >= 7 {
        assert slots[i] == FreeAttributeSlot;
      }
    }
    FindStandardAttribute(free, 1);
    FindStandardAttribute(free, 2);
    FindStandardAttribute(free, 3);
    FindStandardAttribute(free, 4);
    FindStandardAttribute(free, 5);
    FindStandardAttribute(free, 6);
    FindStandardAttribute(free, 7);
    assert LittleEndian(0, 2) == [0, 0];
    forall n: uint16 | n == 0 || n > 7
      ensures SingleGet(slots, Some(fields), n, service, support64) == Refused(service)
    {
      match FindAttribute(slots, n)
      case None =>
      case Some(i) =>
        assert i >= 7;
        assert slots[i] == FreeAttributeSlot;
    }
  }

  /** The class object of a class CreateCipClass made replies to class
      attributes 1, 6 and 7 with the class's revision, the metaclass's highest
      attribute number 7 and the class's highest attribute number, still 0. */
  lemma CreatedClassObjectReplies(cls: CipClass, numberOfClassServices: nat, numberOfInstanceServices: nat,
                                  service: uint8, support64: bool)
    requires cls.meta != null && cls.classObject != null
    requires cls.classObject.owner == cls.meta && cls.classObject.describes == cls
    requires StandardTables(cls, numberOfClassServices, numberOfInstanceServices)
    ensures SlotsFitWith(cls.classObject.attributes[..], FieldsOf(cls.classObject))
    ensures SingleGet(cls.classObject.attributes[..], FieldsOf(cls.classObject), 1, service, support64)
            == Reply(Success, 2, LittleEndian(cls.revision, 2))
    ensures SingleGet(cls.classObject.attributes[..], FieldsOf(cls.classObject), 6, service, support64)
            == Reply(Success, 2, LittleEndian(7, 2))
    ensures SingleGet(cls.classObject.attributes[..], FieldsOf(cls.classObject), 7, service, support64)
            == Reply(Success, 2, LittleEndian(0, 2))
  {
    StandardClassAttributeReplies(FieldsOf(cls.classObject).value, cls.classObject.attributes.Length - 7,
                                  service, support64);
  }

  /** The service table CreateCipClass gives a class or its metaclass: the
      standard services, then `free` zero-filled slots. */
  function ClassServices(mask: bv32, free: nat): seq<ServiceSlot> {
    StandardServices(mask) + FreeServiceSlots(free)
  }

  /** How NotifyClass finds services in a table CreateCipClass made:
      GetAttributeSingle in the last standard slot, with the generic handler;
      GetAttributeAll in the first slot when the get-all mask is non-zero and
      nowhere otherwise; service code 0 in the first free slot, whose handler
      is NULL, when there is one; no other service code anywhere. */
  lemma StandardServiceLookup(mask: bv32, free: nat)
    ensures FindService(ClassServices(mask, free), GetAttributeSingleService) == Some(|StandardServices(mask)| - 1)
    ensures GetSingleIsGeneric(ClassServices(mask, free))
    ensures mask != 0 ==> FindService(ClassServices(mask, free), GetAttributeAllService) == Some(0)
                          && ClassServices(mask, free)[0].handler == Some(GetAttributeAllHandler)
    ensures mask == 0 ==> FindService(ClassServices(mask, free), GetAttributeAllService) == None
    ensures free > 0 ==> FindService(ClassServices(mask, free), 0) == Some(|StandardServices(mask)|)
                         && ClassServices(mask, free)[|StandardServices(mask)|].handler == None
    ensures free == 0 ==> FindService(ClassServices(mask, free), 0) == None
    ensures forall n: uint8 :: n != 0 && n != GetAttributeAllService && n != GetAttributeSingleService ==>
              FindService(ClassServices(mask, free), n) == None
  {
    var services := ClassServices(mask, free);
    var std := StandardServices(mask);
    assert forall i :: |std| <= i < |services| ==> services[i] == FreeServiceSlot;
    if free > 0 {
      assert services[|std|] == FreeServiceSlot;
    }
  }
}
