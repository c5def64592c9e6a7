/**
 * The PCI collaborators the AC97 front-end talks to: the configuration-space
 * register bank (`PciConfiguration`) and the system address allocator
 * (`SystemAllocator`). Both are external libraries; only the parts the AC97
 * device observes are modelled.
 */
module Pci {
  import opened Wrappers

  /** Bus/device/function triple recorded by `assign_address`. */
  datatype PciAddress = PciAddress(bus: bv8, dev: bv8, func: bv8)

  datatype PciInterruptPin = IntA | IntB | IntC | IntD

  datatype PciClassCode = MultimediaController

  datatype PciMultimediaSubclass = AudioDevice

  datatype PciHeaderType = Device | Bridge

  /** One base address register as the device registers it: index, address and size. */
  datatype PciBarConfiguration = PciBarConfiguration(registerIndex: nat, address: nat, size: nat)

  /** Why configuration space refused a BAR. */
  datatype PciConfigError = BarInUse(index: nat)

  /** The configuration-space identity, the interrupt routing and the registered BARs. */
  datatype PciConfiguration = PciConfiguration(
    vendorId: bv16,
    deviceId: bv16,
    classCode: PciClassCode,
    subclass: PciMultimediaSubclass,
    progIf: Option<bv8>,
    headerType: PciHeaderType,
    subsystemVendorId: bv16,
    subsystemId: bv16,
    irq: Option<(bv8, PciInterruptPin)>,
    bars: map<nat, PciBarConfiguration>)

  /** `PciConfiguration::new`: the given identity, no interrupt routing, no BARs. */
  function NewConfiguration(
    vendorId: bv16, deviceId: bv16, classCode: PciClassCode, subclass: PciMultimediaSubclass,
    progIf: Option<bv8>, headerType: PciHeaderType, subsystemVendorId: bv16, subsystemId: bv16): (c: PciConfiguration)
    ensures c.vendorId == vendorId && c.deviceId == deviceId && c.subsystemVendorId == subsystemVendorId
    ensures c.subsystemId == subsystemId && c.classCode == classCode && c.subclass == subclass
    ensures c.progIf == progIf && c.headerType == headerType
    ensures c.irq == None && c.bars == map[]
  {
    PciConfiguration(vendorId, deviceId, classCode, subclass, progIf, headerType,
                     subsystemVendorId, subsystemId, None, map[])
  }

  /** `set_irq`: records the interrupt line and pin; nothing else changes. */
  function SetIrq(c: PciConfiguration, line: bv8, pin: PciInterruptPin): (c': PciConfiguration)
    ensures c'.irq == Some((line, pin))
    ensures c' == c.(irq := c'.irq)
  {
    c.(irq := Some((line, pin)))
  }

  /**
   * `add_pci_bar`: registers a BAR under its index. The one rejection modelled is
   * an index that is already registered.
   */
  function AddPciBar(c: PciConfiguration, bar: PciBarConfiguration): (r: Result<PciConfiguration, PciConfigError>)
    ensures r.Err? <==> bar.registerIndex in c.bars
    ensures r.Err? ==> r.error == BarInUse(bar.registerIndex)
    ensures r.Ok? ==> r.value.bars == c.bars[bar.registerIndex := bar]
    ensures r.Ok? ==> r.value == c.(bars := r.value.bars)
  {
    if bar.registerIndex in c.bars then Err(BarInUse(bar.registerIndex))
    else Ok(c.(bars := c.bars[bar.registerIndex := bar]))
  }

  /** `get_bar_addr`: the address registered under an index, or 0 for an unregistered BAR. */
  function GetBarAddr(c: PciConfiguration, index: nat): (a: nat)
    ensures index in c.bars ==> a == c.bars[index].address
    ensures index !in c.bars ==> a == 0
  {
    if index in c.bars then c.bars[index].address else 0
  }

  datatype MmioType = Low | High

  /** The owner tag of an allocation. */
  datatype Alloc = PciBar(bus: bv8, dev: bv8, func: bv8, bar: nat)

  datatype AllocError = OutOfSpace | Refused(reason: nat)

  /** One `allocate_with_align` call as the allocator received it. */
  datatype AllocRequest = AllocRequest(mmio: MmioType, size: nat, alloc: Alloc, tag: string, alignment: nat)

  /**
   * The system allocator, seen from outside: each `allocate_with_align` consumes the
   * next scripted reply (an address or an error; an exhausted script answers
   * `OutOfSpace`) and is recorded in `requests`.
   */
  class SystemAllocator {
    var replies: seq<Result<nat, AllocError>>
    ghost var requests: seq<AllocRequest>

    constructor (replies: seq<Result<nat, AllocError>>)
      ensures this.replies == replies && requests == []
    {
      this.replies := replies;
      requests := [];
    }

    method AllocateWithAlign(mmio: MmioType, size: nat, alloc: Alloc, tag: string, alignment: nat)
      returns (r: Result<nat, AllocError>)
      modifies this
      ensures r == NextReply(old(replies), 0)
      ensures replies == if old(replies) == [] then [] else old(replies)[1..]
      ensures requests == old(requests) + [AllocRequest(mmio, size, alloc, tag, alignment)]
    {
      if replies == [] {
        r := Err(OutOfSpace);
      } else {
        r := replies[0];
        replies := replies[1..];
      }
      requests := requests + [AllocRequest(mmio, size, alloc, tag, alignment)];
    }
  }

  /** The reply the allocator gives to the k-th next request. */
  function NextReply(replies: seq<Result<nat, AllocError>>, k: nat): (r: Result<nat, AllocError>)
    ensures k < |replies| ==> r == replies[k]
    ensures k >= |replies| ==> r == Err(OutOfSpace)
  {
    if k < |replies| then replies[k] else Err(OutOfSpace)
  }
}
