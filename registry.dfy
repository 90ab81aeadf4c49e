/** The object model: classes, their instances, and the fixed-capacity tables
    of attribute and service slots that CreateCipClass, AddCipInstances,
    AddCIPInstance, InsertAttribute, InsertService and GetCipAttribute
    maintain. A class's metaclass is a second CipClass whose one instance is
    the class object: instance 0 of the class, whose attributes are the class
    attributes and whose services are the metaclass's. */
module Registry {
  import opened CipTypes

  /** A field of a class that a class attribute's data pointer refers to, so
      that reading the attribute sees the field's current value. */
  datatype LiveField =
    | RevisionField             // &class->revision
    | InstanceCountField        // &class->number_of_instances
    | ClassHighestAttribute     // &meta_class->highest_attribute_number
    | InstanceHighestAttribute  // &class->highest_attribute_number

  /** An attribute's data pointer: NULL, a value of its own, or a class field. */
  datatype AttributeData = NoData | Stored(value: CipValue) | Live(field: LiveField)

  /** One entry of an attribute table. */
  datatype AttributeSlot = AttributeSlot(number: uint16, cipType: CipType, flags: bv8, data: AttributeData)

  /** A zero-filled attribute slot, as CipCalloc leaves it: number 0, tag 0, no data. */
  const FreeAttributeSlot := AttributeSlot(0, Unlisted(0), 0, NoData)

  /** The handlers a service slot can point to: the two generic ones of this
      file, or a handler of another object's code. */
  datatype ServiceFunction = GetAttributeSingleHandler | GetAttributeAllHandler | ObjectHandler(id: nat)

  /** One entry of a service table; `handler` is None for a NULL pointer. */
  datatype ServiceSlot = ServiceSlot(number: uint8, handler: Option<ServiceFunction>)

  /** A zero-filled service slot: number 0 and a NULL handler. */
  const FreeServiceSlot := ServiceSlot(0, None)

  /** Whether the value an attribute's data points to has the shape its type
      tag says: class fields are 16-bit words. */
  predicate SlotFits(slot: AttributeSlot) {
    match slot.data
    case NoData => true
    case Stored(v) => Fits(slot.cipType, v)
    case Live(_) => LayoutOf(slot.cipType) == TwoBytes
  }

  /** The index of the first attribute slot with this number (GetCipAttribute). */
  function FindAttribute(slots: seq<AttributeSlot>, number: uint16): (r: Option<nat>)
    ensures r.Some? ==> r.value < |slots| && slots[r.value].number == number
                        && forall j :: 0 <= j < r.value ==> slots[j].number != number
    ensures r.None? ==> forall j :: 0 <= j < |slots| ==> slots[j].number != number
  {
    if slots == [] then None
    else if slots[0].number == number then Some(0)
    else match FindAttribute(slots[1..], number)
      case None => None
      case Some(i) => Some(i + 1)
  }

  /** The index of the first attribute slot whose data is NULL (InsertAttribute). */
  function FirstFreeAttribute(slots: seq<AttributeSlot>): (r: Option<nat>)
    ensures r.Some? ==> r.value < |slots| && slots[r.value].data.NoData?
                        && forall j :: 0 <= j < r.value ==> !slots[j].data.NoData?
    ensures r.None? ==> forall j :: 0 <= j < |slots| ==> !slots[j].data.NoData?
  {
    if slots == [] then None
    else if slots[0].data.NoData? then Some(0)
    else match FirstFreeAttribute(slots[1..])
      case None => None
      case Some(i) => Some(i + 1)
  }

  /** The index of the first service slot that already has this number or has
      a NULL handler (InsertService). */
  function ServiceSlotFor(slots: seq<ServiceSlot>, number: uint8): (r: Option<nat>)
    ensures r.Some? ==> r.value < |slots| && (slots[r.value].number == number || slots[r.value].handler.None?)
                        && forall j :: 0 <= j < r.value ==> slots[j].number != number && slots[j].handler.Some?
    ensures r.None? ==> forall j :: 0 <= j < |slots| ==> slots[j].number != number && slots[j].handler.Some?
  {
    if slots == [] then None
    else if slots[0].number == number || slots[0].handler.None? then Some(0)
    else match ServiceSlotFor(slots[1..], number)
      case None => None
      case Some(i) => Some(i + 1)
  }

  /** The index of the first service slot with this number, filled or not
      (the search of NotifyClass and GetAttributeAll). */
  function FindService(slots: seq<ServiceSlot>, number: uint8): (r: Option<nat>)
    ensures r.Some? ==> r.value < |slots| && slots[r.value].number == number
                        && forall j :: 0 <= j < r.value ==> slots[j].number != number
    ensures r.None? ==> forall j :: 0 <= j < |slots| ==> slots[j].number != number
  {
    if slots == [] then None
    else if slots[0].number == number then Some(0)
    else match FindService(slots[1..], number)
      case None => None
      case Some(i) => Some(i + 1)
  }

  /** The index of the first number equal to n (GetCipInstance, GetCipClass). */
  function FirstIndexOf(numbers: seq<uint32>, n: uint32): (r: Option<nat>)
    ensures r.Some? ==> r.value < |numbers| && numbers[r.value] == n
                        && forall j :: 0 <= j < r.value ==> numbers[j] != n
    ensures r.None? ==> forall j :: 0 <= j < |numbers| ==> numbers[j] != n
  {
    if numbers == [] then None
    else if numbers[0] == n then Some(0)
    else match FirstIndexOf(numbers[1..], n)
      case None => None
      case Some(i) => Some(i + 1)
  }

  /** The instance numbers of a chain of instances, in order. */
  function NumbersOf(s: seq<CipInstance>): (r: seq<uint32>)
    reads s
    ensures |r| == |s| && forall i :: 0 <= i < |s| ==> r[i] == s[i].instanceNumber
  {
    if s == [] then [] else NumbersOf(s[..|s| - 1]) + [s[|s| - 1].instanceNumber]
  }

  /** An instance: its number, its class, and its attribute table. The class
      object of a class C is the instance whose `describes` is C and whose
      class is C's metaclass. */
  class CipInstance {
    var instanceNumber: uint32
    const owner: CipClass
    const describes: CipClass?
    const attributes: array<AttributeSlot>

    /** An instance with a zero-filled attribute table of the given size. */
    constructor (number: uint32, owner: CipClass, describes: CipClass?, attributeCount: nat)
      ensures instanceNumber == number && this.owner == owner && this.describes == describes
      ensures fresh(attributes) && attributes.Length == attributeCount
      ensures forall i :: 0 <= i < attributeCount ==> attributes[i] == FreeAttributeSlot
    {
      instanceNumber := number;
      this.owner := owner;
      this.describes := describes;
      attributes := new AttributeSlot[attributeCount](_ => FreeAttributeSlot);
    }

    /** The attribute table has the size its class declares. */
    predicate Shaped() {
      attributes.Length == owner.numberOfAttributes && owner.Shaped()
    }

    /** GetCipAttribute: the first slot among the class's number_of_attributes
        slots with this number, or none. */
    method GetCipAttribute(number: uint16) returns (index: Option<nat>)
      requires Shaped()
      ensures index == FindAttribute(attributes[..], number)
    {
      var i := 0;
      while i < owner.numberOfAttributes
        invariant 0 <= i <= attributes.Length
        invariant forall j :: 0 <= j < i ==> attributes[j].number != number
      {
        if number == attributes[i].number {
          return Some(i);
        }
        i := i + 1;
      }
      return None;
    }

    /** InsertAttribute: fills the first slot whose data is NULL and raises the
        class's highest attribute number; `inserted` is false where the source
        asserts (no free slot among the class's number_of_attributes). */
    method InsertAttribute(number: uint16, cipType: CipType, data: AttributeData, flags: bv8)
      returns (inserted: bool)
      requires Shaped()
      modifies attributes, owner`highestAttributeNumber
      ensures var free := FirstFreeAttribute(old(attributes[..]));
              && inserted == free.Some?
              && (inserted ==> attributes[..] == old(attributes[..])[free.value := AttributeSlot(number, cipType, flags, data)])
              && (!inserted ==> attributes[..] == old(attributes[..]))
      ensures owner.highestAttributeNumber
              == if inserted && number > old(owner.highestAttributeNumber) then number else old(owner.highestAttributeNumber)
    {
      var i := 0;
      while i < owner.numberOfAttributes
        invariant 0 <= i <= attributes.Length
        invariant forall j :: 0 <= j < i ==> !attributes[j].data.NoData?
      {
        if attributes[i].data.NoData? {
          attributes[i] := AttributeSlot(number, cipType, flags, data);
          if number > owner.highestAttributeNumber {
            owner.highestAttributeNumber := number;
          }
          return true;
        }
        i := i + 1;
      }
      return false;
    }
  }

  /** A class: its id and revision, the shape of its instances, its service
      table, its metaclass (null for a metaclass), its class object, and its
      instances in chain order. */
  class CipClass {
    const classId: uint32
    const revision: uint16
    const numberOfAttributes: nat
    const getAttributeAllMask: bv32
    const numberOfServices: nat
    const services: array<ServiceSlot>
    const meta: CipClass?
    var classObject: CipInstance?
    var numberOfInstances: uint16
    var highestAttributeNumber: uint16
    var instances: seq<CipInstance>

    /** A class with an empty instance chain and a zero-filled service table;
        given its metaclass, it also gets its class object. */
    constructor (classId: uint32, revision: uint16, numberOfAttributes: nat, getAttributeAllMask: bv32,
                 numberOfServices: nat, meta: CipClass?)
      ensures this.classId == classId && this.revision == revision
      ensures this.numberOfAttributes == numberOfAttributes && this.getAttributeAllMask == getAttributeAllMask
      ensures this.numberOfServices == numberOfServices && this.meta == meta
      ensures fresh(services) && services.Length == numberOfServices
      ensures forall i :: 0 <= i < numberOfServices ==> services[i] == FreeServiceSlot
      ensures numberOfInstances == 0 && highestAttributeNumber == 0 && instances == []
      ensures meta == null ==> classObject == null
      ensures meta != null ==> classObject != null && fresh(classObject) && fresh(classObject.attributes)
                               && classObject.instanceNumber == 0 && classObject.owner == meta
                               && classObject.describes == this
                               && classObject.attributes.Length == meta.numberOfAttributes
                               && forall i :: 0 <= i < meta.numberOfAttributes ==> classObject.attributes[i] == FreeAttributeSlot
    {
      this.classId := classId;
      this.revision := revision;
      this.numberOfAttributes := numberOfAttributes;
      this.getAttributeAllMask := getAttributeAllMask;
      this.numberOfServices := numberOfServices;
      this.meta := meta;
      services := new ServiceSlot[numberOfServices](_ => FreeServiceSlot);
      numberOfInstances := 0;
      highestAttributeNumber := 0;
      instances := [];
      new;
      if meta != null {
        classObject := new CipInstance(0, meta, this, meta.numberOfAttributes);
      } else {
        classObject := null;
      }
    }

    /** The service table has number_of_services slots. */
    predicate Shaped() {
      services.Length == numberOfServices
    }

    /** GetCipInstance: 0 names the class object; any other number is looked
        up along the instance chain. */
    method GetCipInstance(number: uint32) returns (inst: CipInstance?)
      ensures number == 0 ==> inst == classObject
      ensures number != 0 ==> match FirstIndexOf(NumbersOf(instances), number)
                              case None => inst == null
                              case Some(i) => inst == instances[i]
    {
      if number == 0 {
        return classObject;
      }
      var i := 0;
      while i < |instances|
        invariant 0 <= i <= |instances|
        invariant forall j :: 0 <= j < i ==> instances[j].instanceNumber != number
      {
        if instances[i].instanceNumber == number {
          return instances[i];
        }
        i := i + 1;
      }
      return null;
    }

    /** The service search of NotifyClass and GetAttributeAll: the first of
        the number_of_services slots with this service number. */
    method FindServiceSlot(number: uint8) returns (index: Option<nat>)
      requires Shaped()
      ensures index == FindService(services[..], number)
    {
      var i := 0;
      while i < numberOfServices
        invariant 0 <= i <= services.Length
        invariant forall k :: 0 <= k < i ==> services[k].number != number
      {
        if services[i].number == number {
          return Some(i);
        }
        i := i + 1;
      }
      return None;
    }

    /** InsertService: overwrites the first slot that already has this service
        number or has a NULL handler; `inserted` is false where the source
        asserts (every slot holds another service). */
    method InsertService(number: uint8, handler: ServiceFunction) returns (inserted: bool)
      requires Shaped()
      modifies services
      ensures var slot := ServiceSlotFor(old(services[..]), number);
              && inserted == slot.Some?
              && (inserted ==> services[..] == old(services[..])[slot.value := ServiceSlot(number, Some(handler))])
              && (!inserted ==> services[..] == old(services[..]))
    {
      var i := 0;
      while i < numberOfServices
        invariant 0 <= i <= services.Length
        invariant forall j :: 0 <= j < i ==> services[j].number != number && services[j].handler.Some?
      {
        if services[i].number == number || services[i].handler.None? {
          services[i] := ServiceSlot(number, Some(handler));
          return true;
        }
        i := i + 1;
      }
      return false;
    }

    /** AddCipInstances: walks the chain to its tail, counting, then appends
        `count` new instances numbered after the chain's length, each with a
        zero-filled attribute table; the instance counter wraps at 16 bits. */
    method AddCipInstances(count: nat) returns (first: CipInstance)
      requires 1 <= count && |instances| + count < 0x8000_0000
      modifies this`instances, this`numberOfInstances
      ensures |instances| == old(|instances|) + count
      ensures instances[..old(|instances|)] == old(instances)
      ensures forall i :: 0 <= i < old(|instances|) ==> instances[i].instanceNumber == old(instances[i].instanceNumber)
      ensures forall i :: old(|instances|) <= i < |instances| ==>
                fresh(instances[i]) && fresh(instances[i].attributes)
                && instances[i].instanceNumber == i + 1
                && instances[i].owner == this && instances[i].describes == null
                && instances[i].attributes.Length == numberOfAttributes
                && forall j :: 0 <= j < numberOfAttributes ==> instances[i].attributes[j] == FreeAttributeSlot
      ensures first == instances[old(|instances|)]
      ensures numberOfInstances == (old(numberOfInstances) + count) % 0x1_0000
    {
      var oldLength := |instances|;
      var instanceNumber := 1;
      var tail := 0;
      while tail < |instances|
        invariant 0 <= tail <= |instances| && instanceNumber == tail + 1
      {
        tail := tail + 1;
        instanceNumber := instanceNumber + 1;
      }
      numberOfInstances := (numberOfInstances + count) % 0x1_0000;
      var i := 0;
      while i < count
        invariant 0 <= i <= count
        invariant |instances| == old(|instances|) + i && instanceNumber == |instances| + 1
        invariant numberOfInstances == (old(numberOfInstances) + count) % 0x1_0000
        invariant instances[..old(|instances|)] == old(instances)
        invariant forall k :: old(|instances|) <= k < |instances| ==>
                    fresh(instances[k]) && fresh(instances[k].attributes)
                    && instances[k].instanceNumber == k + 1
                    && instances[k].owner == this && instances[k].describes == null
                    && instances[k].attributes.Length == numberOfAttributes
                    && forall j :: 0 <= j < numberOfAttributes ==> instances[k].attributes[j] == FreeAttributeSlot
      {
        var current := new CipInstance(instanceNumber, this, null, numberOfAttributes);
        instances := instances + [current];
        instanceNumber := instanceNumber + 1;
        i := i + 1;
      }
      first := instances[oldLength];
    }

    /** AddCIPInstance: the instance with this number if there is one (the
        class object for 0), else one new instance given this number. */
    method AddCIPInstance(number: uint32) returns (inst: CipInstance?)
      requires classObject != null && |instances| + 1 < 0x8000_0000
      modifies this`instances, this`numberOfInstances
      ensures var found := FirstIndexOf(NumbersOf(old(instances)), number);
              if number == 0 then inst == classObject && instances == old(instances)
                                  && numberOfInstances == old(numberOfInstances)
              else if found.Some? then inst == old(instances)[found.value] && instances == old(instances)
                                       && numberOfInstances == old(numberOfInstances)
              else inst != null && fresh(inst) && instances == old(instances) + [inst]
                   && inst.instanceNumber == number && inst.owner == this
                   && numberOfInstances == (old(numberOfInstances) + 1) % 0x1_0000
      ensures forall i :: 0 <= i < old(|instances|) ==> instances[i].instanceNumber == old(instances[i].instanceNumber)
    {
      inst := GetCipInstance(number);
      if inst == null {
        inst := AddCipInstances(1);
        inst.instanceNumber := number;
        assert instances == old(instances) + [inst];
      }
    }
  }

  /** n zero-filled attribute slots. */
  function FreeAttributeSlots(n: nat): (r: seq<AttributeSlot>)
    ensures |r| == n && forall i :: 0 <= i < n ==> r[i] == FreeAttributeSlot
  {
    seq(n, _ => FreeAttributeSlot)
  }

  /** n zero-filled service slots. */
  function FreeServiceSlots(n: nat): (r: seq<ServiceSlot>)
    ensures |r| == n && forall i :: 0 <= i < n ==> r[i] == FreeServiceSlot
  {
    seq(n, _ => FreeServiceSlot)
  }

  /** Class attributes 1 to 7, in the order CreateCipClass inserts them:
      revision, largest instance number and number of instances (both the
      instance counter), the optional attribute and service lists (0), and
      the highest class and instance attribute numbers. */
  function StandardClassAttributes(): (r: seq<AttributeSlot>)
    ensures |r| == 7 && forall i :: 0 <= i < 7 ==> r[i].number == i + 1 && !r[i].data.NoData? && SlotFits(r[i])
  {
    [ AttributeSlot(1, CipUint, GetableSingleAndAll, Live(RevisionField)),
      AttributeSlot(2, CipUint, GetableSingleAndAll, Live(InstanceCountField)),
      AttributeSlot(3, CipUint, GetableSingleAndAll, Live(InstanceCountField)),
      AttributeSlot(4, CipUint, GetableAll, Stored(Word16(0))),
      AttributeSlot(5, CipUint, GetableAll, Stored(Word16(0))),
      AttributeSlot(6, CipUint, GetableSingleAndAll, Live(ClassHighestAttribute)),
      AttributeSlot(7, CipUint, GetableSingleAndAll, Live(InstanceHighestAttribute)) ]
  }

  /** The services CreateCipClass registers: GetAttributeAll only when the
      get-all mask is non-zero, then GetAttributeSingle. */
  function StandardServices(mask: bv32): (r: seq<ServiceSlot>)
    ensures |r| == if mask == 0 then 1 else 2
    ensures r[|r| - 1] == ServiceSlot(GetAttributeSingleService, Some(GetAttributeSingleHandler))
  {
    (if mask != 0 then [ServiceSlot(GetAttributeAllService, Some(GetAttributeAllHandler))] else [])
    + [ServiceSlot(GetAttributeSingleService, Some(GetAttributeSingleHandler))]
  }

  /** The ids of a list of classes, in order. */
  function ClassIds(s: seq<CipClass>): (r: seq<uint32>)
    ensures |r| == |s| && forall i :: 0 <= i < |s| ==> r[i] == s[i].classId
  {
    if s == [] then [] else ClassIds(s[..|s| - 1]) + [s[|s| - 1].classId]
  }

  /** What CreateCipClass returns: the new class, or 0 because the message
      router refused to register it; `AlreadyDefined` stands for the
      assertion that the id is not yet in use. */
  datatype CreateOutcome = Created(cls: CipClass) | NotRegistered | AlreadyDefined

  /** The message router's table of classes, with a fixed capacity standing
      for the allocation that RegisterCipClass may fail. */
  class ClassRegistry {
    var classes: seq<CipClass>
    const capacity: nat

    constructor (capacity: nat)
      ensures classes == [] && this.capacity == capacity
    {
      classes := [];
      this.capacity := capacity;
    }

    /** GetCipClass: the registered class with this id, or null. */
    method GetCipClass(classId: uint32) returns (cls: CipClass?)
      ensures match FirstIndexOf(ClassIds(classes), classId)
              case None => cls == null
              case Some(i) => cls == classes[i]
    {
      var i := 0;
      while i < |classes|
        invariant 0 <= i <= |classes|
        invariant forall j :: 0 <= j < i ==> classes[j].classId != classId
      {
        if classes[i].classId == classId {
          return classes[i];
        }
        i := i + 1;
      }
      return null;
    }

    /** RegisterCipClass: adds the class, or fails when the table is full. */
    method RegisterCipClass(cls: CipClass) returns (status: EipStatus)
      modifies this`classes
      ensures |old(classes)| < capacity ==> status == StatusOk && classes == old(classes) + [cls]
      ensures |old(classes)| >= capacity ==> status == StatusError && classes == old(classes)
    {
      if |classes| < capacity {
        classes := classes + [cls];
        return StatusOk;
      }
      return StatusError;
    }

    /** CreateCipClass: a class and its metaclass with the table sizes the
        arguments ask for (each service table with room for the standard
        services), `instanceCount` instances, the class registered, class
        attributes 1 to 7 and the standard services inserted. */
    method CreateCipClass(classId: uint32, numberOfClassAttributes: nat, classMask: bv32,
                          numberOfClassServices: nat, numberOfInstanceAttributes: nat,
                          instanceMask: bv32, numberOfInstanceServices: nat,
                          instanceCount: nat, revision: uint16)
      returns (outcome: CreateOutcome)
      requires instanceCount < 0x8000_0000
      modifies this`classes
      ensures outcome.AlreadyDefined? <==> FirstIndexOf(ClassIds(old(classes)), classId).Some?
      ensures outcome.NotRegistered? <==> FirstIndexOf(ClassIds(old(classes)), classId).None? && |old(classes)| >= capacity
      ensures !outcome.Created? ==> classes == old(classes)
      ensures outcome.Created? ==> fresh(outcome.cls) && classes == old(classes) + [outcome.cls]
      ensures outcome.Created? ==>
                && ClassFields(outcome.cls, classId, revision, numberOfInstanceAttributes, instanceMask,
                               numberOfInstanceServices, instanceCount)
                && MetaclassFields(outcome.cls, numberOfClassAttributes, classMask, numberOfClassServices)
                && StandardTables(outcome.cls, numberOfClassServices, numberOfInstanceServices)
    {
      var existing := GetCipClass(classId);
      if existing != null {
        return AlreadyDefined;
      }
      var cls := NewClass(classId, numberOfClassAttributes, classMask, numberOfClassServices,
                          numberOfInstanceAttributes, instanceMask, numberOfInstanceServices,
                          instanceCount, revision);
      var registered := RegisterCipClass(cls);
      if registered == StatusError {
        return NotRegistered;
      }
      InsertStandardEntries(cls, numberOfClassAttributes, classMask, numberOfClassServices, numberOfInstanceServices);
      return Created(cls);
    }
  }

  /** The fields CreateCipClass gives a class: the arguments, a service table
      with room for the standard services, and `instanceCount` instances
      numbered from 1 (the counter kept in 16 bits). */
  ghost predicate ClassFields(cls: CipClass, classId: uint32, revision: uint16, numberOfAttributes: nat,
                              mask: bv32, numberOfServices: nat, instanceCount: nat)
    reads cls, cls.instances
  {
    && cls.classId == classId && cls.revision == revision
    && cls.numberOfAttributes == numberOfAttributes && cls.getAttributeAllMask == mask
    && cls.numberOfServices == numberOfServices + |StandardServices(mask)| && cls.Shaped()
    && |cls.instances| == instanceCount && cls.numberOfInstances == instanceCount % 0x1_0000
    && (forall i :: 0 <= i < instanceCount ==>
          cls.instances[i].instanceNumber == i + 1 && cls.instances[i].owner == cls)
  }

  /** The fields CreateCipClass gives the metaclass and the class object: the
      metaclass has id 0xFFFFFFFF, seven attributes more than asked, room for
      the standard services, and the class object (instance 0) as its one
      instance. */
  ghost predicate MetaclassFields(cls: CipClass, numberOfAttributes: nat, mask: bv32, numberOfServices: nat)
    reads cls, cls.meta, cls.classObject
  {
    && cls.meta != null && cls.classObject != null
    && cls.meta.classId == 0xFFFF_FFFF && cls.meta.meta == null
    && cls.meta.numberOfAttributes == numberOfAttributes + 7 && cls.meta.getAttributeAllMask == mask
    && cls.meta.numberOfServices == numberOfServices + |StandardServices(mask)| && cls.meta.Shaped()
    && cls.meta.instances == [cls.classObject] && cls.meta.numberOfInstances == 1
    && cls.classObject.instanceNumber == 0 && cls.classObject.owner == cls.meta
    && cls.classObject.describes == cls && cls.classObject.Shaped()
  }

  /** The tables CreateCipClass fills: the standard services first in both
      service tables, class attributes 1 to 7 first in the class object's
      attribute table, everything after them free; the metaclass's highest
      attribute number is 7 and the class's is still 0. */
  ghost predicate StandardTables(cls: CipClass, numberOfClassServices: nat, numberOfInstanceServices: nat)
    requires cls.meta != null && cls.classObject != null
    reads cls, cls.services, cls.meta, cls.meta.services, cls.classObject, cls.classObject.attributes
  {
    && cls.services[..] == StandardServices(cls.getAttributeAllMask) + FreeServiceSlots(numberOfInstanceServices)
    && cls.meta.services[..] == StandardServices(cls.meta.getAttributeAllMask) + FreeServiceSlots(numberOfClassServices)
    && cls.classObject.attributes.Length >= 7
    && cls.classObject.attributes[..] == StandardClassAttributes() + FreeAttributeSlots(cls.classObject.attributes.Length - 7)
    && cls.meta.highestAttributeNumber == 7 && cls.highestAttributeNumber == 0
  }

  /** The allocation half of CreateCipClass: the class, its metaclass and
      class object with zero-filled tables, and the requested instances. */
  method NewClass(classId: uint32, numberOfClassAttributes: nat, classMask: bv32,
                  numberOfClassServices: nat, numberOfInstanceAttributes: nat,
                  instanceMask: bv32, numberOfInstanceServices: nat,
                  instanceCount: nat, revision: uint16)
    returns (cls: CipClass)
    requires instanceCount < 0x8000_0000
    ensures fresh(cls) && cls.meta != null && fresh(cls.meta) && cls.classObject != null
    ensures fresh(cls.services) && fresh(cls.meta.services) && fresh(cls.classObject.attributes)
    ensures cls.meta != cls && cls.services != cls.meta.services
    ensures ClassFields(cls, classId, revision, numberOfInstanceAttributes, instanceMask,
                        numberOfInstanceServices, instanceCount)
    ensures MetaclassFields(cls, numberOfClassAttributes, classMask, numberOfClassServices)
    ensures cls.services[..] == FreeServiceSlots(cls.numberOfServices)
    ensures cls.meta.services[..] == FreeServiceSlots(cls.meta.numberOfServices)
    ensures cls.classObject.attributes[..] == FreeAttributeSlots(cls.classObject.attributes.Length)
    ensures cls.meta.highestAttributeNumber == 0 && cls.highestAttributeNumber == 0
  {
    var metaClass := new CipClass(0xFFFF_FFFF, 0, numberOfClassAttributes + 7, classMask,
                                  numberOfClassServices + (if classMask == 0 then 1 else 2), null);
    cls := new CipClass(classId, revision, numberOfInstanceAttributes, instanceMask,
                        numberOfInstanceServices + (if instanceMask == 0 then 1 else 2), metaClass);
    metaClass.instances := [cls.classObject];
    metaClass.numberOfInstances := 1;
    assert cls.services[..] == FreeServiceSlots(cls.numberOfServices);
    assert metaClass.services[..] == FreeServiceSlots(metaClass.numberOfServices);
    assert cls.classObject.attributes[..] == FreeAttributeSlots(cls.classObject.attributes.Length);
    if instanceCount > 0 {
      var first := cls.AddCipInstances(instanceCount);
    }
  }

  /** The insertion half of CreateCipClass: class attributes 1 to 7 into the
      class object, then the standard services into the metaclass and into
      the class. */
  method InsertStandardEntries(cls: CipClass, numberOfClassAttributes: nat, classMask: bv32,
                               numberOfClassServices: nat, numberOfInstanceServices: nat)
    requires MetaclassFields(cls, numberOfClassAttributes, classMask, numberOfClassServices)
    requires cls.Shaped() && cls.numberOfServices == numberOfInstanceServices + |StandardServices(cls.getAttributeAllMask)|
    requires cls.meta != cls && cls.services != cls.meta.services
    requires cls.services[..] == FreeServiceSlots(cls.numberOfServices)
    requires cls.meta.services[..] == FreeServiceSlots(cls.meta.numberOfServices)
    requires cls.classObject.attributes[..] == FreeAttributeSlots(cls.classObject.attributes.Length)
    requires cls.meta.highestAttributeNumber == 0 && cls.highestAttributeNumber == 0
    modifies cls.classObject.attributes, cls.meta`highestAttributeNumber, cls.services, cls.meta.services
    ensures StandardTables(cls, numberOfClassServices, numberOfInstanceServices)
  {
    InsertStandardClassAttributes(cls.classObject);
    InsertStandardServices(cls.meta, classMask, numberOfClassServices);
    InsertStandardServices(cls, cls.getAttributeAllMask, numberOfInstanceServices);
  }

  /** Inserting into a table whose first k slots are the first k standard
      class attributes and whose rest is free fills slot k. */
  lemma NextStandardAttribute(slots: seq<AttributeSlot>, k: nat, free: nat)
    requires k < 7 && slots == StandardClassAttributes()[..k] + FreeAttributeSlots(free + 1)
    ensures FirstFreeAttribute(slots) == Some(k)
    ensures slots[k := StandardClassAttributes()[k]] == StandardClassAttributes()[..k + 1] + FreeAttributeSlots(free)
  {
    assert slots[k].data.NoData?;
  }

  /** A table of n slots after the first k standard class attributes went in. */
  function PartlyInserted(k: nat, n: nat): (r: seq<AttributeSlot>)
    requires k <= 7 <= n
    ensures |r| == n
  {
    StandardClassAttributes()[..k] + FreeAttributeSlots(n - k)
  }

  /** Inserts standard class attribute k + 1 into the first free slot, which
      follows the k already inserted. */
  method InsertStandardClassAttribute(obj: CipInstance, k: nat)
    requires obj.Shaped() && k < 7 <= obj.attributes.Length && obj.owner.highestAttributeNumber == k
    requires obj.attributes[..] == PartlyInserted(k, obj.attributes.Length)
    modifies obj.attributes, obj.owner`highestAttributeNumber
    ensures obj.attributes[..] == PartlyInserted(k + 1, obj.attributes.Length)
    ensures obj.owner.highestAttributeNumber == k + 1
  {
    var slot := StandardClassAttributes()[k];
    NextStandardAttribute(obj.attributes[..], k, obj.attributes.Length - k - 1);
    var inserted := obj.InsertAttribute(slot.number, slot.cipType, slot.data, slot.flags);
  }

  /** Class attributes 1 to 7 go into the first seven slots of a class
      object's zero-filled table, in order: revision, largest instance
      number and number of instances, the optional attribute and service
      lists, the highest class and instance attribute numbers. */
  method InsertStandardClassAttributes(obj: CipInstance)
    requires obj.Shaped() && obj.attributes.Length >= 7 && obj.owner.highestAttributeNumber == 0
    requires obj.attributes[..] == FreeAttributeSlots(obj.attributes.Length)
    modifies obj.attributes, obj.owner`highestAttributeNumber
    ensures obj.attributes[..] == StandardClassAttributes() + FreeAttributeSlots(obj.attributes.Length - 7)
    ensures obj.owner.highestAttributeNumber == 7
  {
    assert StandardClassAttributes()[..0] == [];
    assert obj.attributes[..] == PartlyInserted(0, obj.attributes.Length);
    InsertStandardClassAttribute(obj, 0);
    InsertStandardClassAttribute(obj, 1);
    InsertStandardClassAttribute(obj, 2);
    InsertStandardClassAttribute(obj, 3);
    InsertStandardClassAttribute(obj, 4);
    InsertStandardClassAttribute(obj, 5);
    InsertStandardClassAttribute(obj, 6);
    assert StandardClassAttributes()[..7] == StandardClassAttributes();
  }

  /** GetAttributeAll (when the mask is non-zero) and GetAttributeSingle go
      into the first slots of a zero-filled service table, in order. */
  method InsertStandardServices(c: CipClass, mask: bv32, extra: nat)
    requires c.Shaped() && c.numberOfServices == extra + |StandardServices(mask)|
    requires c.services[..] == FreeServiceSlots(c.numberOfServices)
    modifies c.services
    ensures c.services[..] == StandardServices(mask) + FreeServiceSlots(extra)
  {
    var inserted;
    if mask != 0 {
      inserted := c.InsertService(GetAttributeAllService, GetAttributeAllHandler);
    }
    inserted := c.InsertService(GetAttributeSingleService, GetAttributeSingleHandler);
  }
}
