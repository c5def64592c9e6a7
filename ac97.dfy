/**
 * The PCI front-end of the emulated AC97 audio controller (`Ac97Dev`): PCI
 * identity, BAR allocation, dispatch of BAR accesses by address window and access
 * width, little-endian packing of register values, and the one-shot handoff of
 * the interrupt handles to the bus master.
 *
 * The device's observable state is summarised by `DevState`; each state-changing
 * method of `Ac97Dev` is specified by a function on `DevState`, and the lemmas
 * after those functions state what the front-end promises.
 */
module Ac97 {
  import opened Wrappers
  import opened LittleEndian
  import opened Pci
  import opened Ac97Parts

  /** The 82801AA AC97 controller's device ID, reused for driver compatibility. */
  const PCI_DEVICE_ID_INTEL_82801AA_5: bv16 := 0x2415

  // ---------------------------------------------------------------------------
  // Backend selection

  datatype Ac97Backend = NULL | CRAS

  datatype Ac97Error = InvalidBackend

  /** `Ac97Backend::default()`. */
  function DefaultBackend(): (b: Ac97Backend)
    ensures ParseBackend("null") == Ok(b)
  {
    NULL
  }

  /** `Ac97Backend::from_str`: exactly "cras" and "null" name a backend. */
  function ParseBackend(s: string): (r: Result<Ac97Backend, Ac97Error>)
    ensures r == Ok(CRAS) <==> s == "cras"
    ensures r == Ok(NULL) <==> s == "null"
    ensures r == Err(InvalidBackend) <==> s != "cras" && s != "null"
  {
    match s
    case "cras" => Ok(CRAS)
    case "null" => Ok(NULL)
    case _ => Err(InvalidBackend)
  }

  /**
   * The default backend is the one selected by "null", and every backend has a name.
   * The first clause repeats `DefaultBackend`'s own contract so that both facts
   * about names sit in one place.
   */
  lemma DefaultBackendIsNull()
    ensures ParseBackend("null") == Ok(DefaultBackend())
    ensures forall b: Ac97Backend :: ParseBackend(if b == CRAS then "cras" else "null") == Ok(b)
  {
  }

  // ---------------------------------------------------------------------------
  // Address classification

  /** Where a BAR access lands: the mixer, the bus master (with the offset into that window), or nowhere. */
  datatype BarWindow = MixerWindow(offset: nat) | BusMasterWindow(offset: nat) | NoWindow

  /**
   * The window an address falls in, for BAR0 at `bar0` and BAR1 at `bar1`. The
   * mixer window is tested first, so it wins where the two overlap.
   */
  function ClassifyAddress(addr: nat, bar0: nat, bar1: nat): (w: BarWindow)
    ensures w.MixerWindow? <==> bar0 <= addr < bar0 + MIXER_REGS_SIZE
    ensures w.BusMasterWindow? <==>
              !(bar0 <= addr < bar0 + MIXER_REGS_SIZE) && bar1 <= addr < bar1 + MASTER_REGS_SIZE
    ensures w.MixerWindow? ==> addr == bar0 + w.offset && w.offset < MIXER_REGS_SIZE
    ensures w.BusMasterWindow? ==> addr == bar1 + w.offset && w.offset < MASTER_REGS_SIZE
  {
    if bar0 <= addr < bar0 + MIXER_REGS_SIZE then MixerWindow(addr - bar0)
    else if bar1 <= addr < bar1 + MASTER_REGS_SIZE then BusMasterWindow(addr - bar1)
    else NoWindow
  }

  /** Every register offset of a window is reached from its base; for disjoint windows, both ways. */
  lemma ClassifyAddressReachesOffsets(bar0: nat, bar1: nat, offset: nat)
    ensures offset < MIXER_REGS_SIZE ==> ClassifyAddress(bar0 + offset, bar0, bar1) == MixerWindow(offset)
    ensures offset < MASTER_REGS_SIZE && (bar0 + MIXER_REGS_SIZE <= bar1 || bar1 + MASTER_REGS_SIZE <= bar0)
            ==> ClassifyAddress(bar1 + offset, bar0, bar1) == BusMasterWindow(offset)
  {
  }

  // ---------------------------------------------------------------------------
  // Device state and the specification of each operation

  /** Everything the front-end can observe of the device. `fills` counts `assign_irq` calls. */
  datatype DevState = DevState(
    config: PciConfiguration,
    pciAddress: Option<PciAddress>,
    irqEvt: Option<EventFd>,
    irqResampleEvt: Option<EventFd>,
    mixer: map<nat, bv16>,
    log: seq<BusMasterCall>,
    fills: nat)

  /** The configuration space `Ac97Dev::new` builds. */
  function InitialConfiguration(): PciConfiguration
  {
    NewConfiguration(0x8086, PCI_DEVICE_ID_INTEL_82801AA_5, MultimediaController, AudioDevice,
                     None, Device, 0x8086, 0x1)
  }

  function InitialState(): (s: DevState)
    ensures s.config.vendorId == 0x8086 && s.config.deviceId == 0x2415
    ensures s.config.subsystemVendorId == 0x8086 && s.config.subsystemId == 0x1
    ensures s.config.classCode == MultimediaController && s.config.subclass == AudioDevice
    ensures s.config.headerType == Device && s.config.progIf == None
    ensures s.config.bars == map[] && s.config.irq == None
    ensures s.pciAddress == None && s.irqEvt == None && s.irqResampleEvt == None
    ensures s.mixer == map[] && s.log == [] && s.fills == 0
  {
    DevState(InitialConfiguration(), None, None, None, map[], [], 0)
  }

  /** The window `addr` falls in, given the BAR addresses registered in configuration space. */
  function Window(s: DevState, addr: nat): BarWindow
  {
    ClassifyAddress(addr, GetBarAddr(s.config, 0), GetBarAddr(s.config, 1))
  }

  /** `assign_address`. */
  function AssignedAddress(s: DevState, address: PciAddress): DevState
  {
    s.(pciAddress := Some(address))
  }

  /** `assign_irq`: routes the (truncated) IRQ number and pin in configuration space and fills both slots. */
  function AssignedIrq(s: DevState, irqEvt: EventFd, irqResampleEvt: EventFd, irqNum: bv32, irqPin: PciInterruptPin): DevState
  {
    s.(config := SetIrq(s.config, Low8(irqNum), irqPin),
       irqEvt := Some(irqEvt), irqResampleEvt := Some(irqResampleEvt), fills := s.fills + 1)
  }

  /** `write_mixer`: a 2-byte write stores the little-endian word; every write then updates the bus master. */
  function MixerWritten(s: DevState, offset: nat, data: seq<bv8>): DevState
  {
    var mixer := if |data| == 2 then s.mixer[offset := Le16Value(data[0], data[1])] else s.mixer;
    s.(mixer := mixer, log := s.log + [MixerSettingsUpdate(mixer)])
  }

  /** The bus-master call a `write_bus_master` of `data` makes: by width, or none. */
  function BusMasterWriteCalls(offset: nat, data: seq<bv8>, mixer: map<nat, bv16>): seq<BusMasterCall>
  {
    if |data| == 1 then [WriteB(offset, data[0], mixer)]
    else if |data| == 2 then [WriteW(offset, Le16Value(data[0], data[1]))]
    else if |data| == 4 then [WriteL(offset, Le32Value(data))]
    else []
  }

  function BusMasterWritten(s: DevState, offset: nat, data: seq<bv8>): DevState
  {
    s.(log := s.log + BusMasterWriteCalls(offset, data, s.mixer))
  }

  /** Both slots are taken; the handles are delivered only when both were present. */
  function IrqHandoff(s: DevState): DevState
  {
    var delivered := if s.irqEvt.Some? && s.irqResampleEvt.Some?
                     then [IrqEventFdHandoff(s.irqEvt.value, s.irqResampleEvt.value)] else [];
    s.(irqEvt := None, irqResampleEvt := None, log := s.log + delivered)
  }

  /** `write_bar`. */
  function BarWritten(s: DevState, addr: nat, data: seq<bv8>): (s': DevState)
    ensures s'.config == s.config && s'.pciAddress == s.pciAddress && s'.fills == s.fills
    ensures |s.log| <= |s'.log| && s'.log[..|s.log|] == s.log
    ensures !Window(s, addr).BusMasterWindow? ==> s'.irqEvt == s.irqEvt && s'.irqResampleEvt == s.irqResampleEvt
    ensures Window(s, addr).BusMasterWindow? ==> s'.irqEvt == None && s'.irqResampleEvt == None
    ensures !Window(s, addr).MixerWindow? ==> s'.mixer == s.mixer
  {
    match Window(s, addr)
    case MixerWindow(offset) => MixerWritten(s, offset, data)
    case BusMasterWindow(offset) => BusMasterWritten(IrqHandoff(s), offset, data)
    case NoWindow => s
  }

  /** The buffer after `read_mixer`: the stored word, low byte first, for a 2-byte read; untouched otherwise. */
  function MixerReadBytes(mixer: map<nat, bv16>, offset: nat, before: seq<bv8>): seq<bv8>
  {
    if |before| == 2 then Le16Bytes(MixerValue(mixer, offset)) else before
  }

  /** The bytes a bus-master read call puts into the buffer: its result, little-endian. */
  function ReplyBytes(c: BusMasterCall): seq<bv8>
  {
    match c
    case ReadB(_, v) => [v]
    case ReadW(_, v) => Le16Bytes(v)
    case ReadL(_, v) => Le32Bytes(v)
    case _ => []
  }

  /** `c` is the accessor `read_bus_master` uses for a buffer of `width` bytes at `offset`. */
  predicate IsBusMasterRead(c: BusMasterCall, offset: nat, width: nat)
  {
    if width == 1 then c.ReadB? && c.offset == offset
    else if width == 2 then c.ReadW? && c.offset == offset
    else if width == 4 then c.ReadL? && c.offset == offset
    else false
  }

  /** `read_bus_master` turned `before` into `after` making the bus-master calls `calls`. */
  predicate BusMasterReadOutcome(offset: nat, before: seq<bv8>, after: seq<bv8>, calls: seq<BusMasterCall>)
  {
    if |before| == 1 || |before| == 2 || |before| == 4 then
      |calls| == 1 && IsBusMasterRead(calls[0], offset, |before|) && after == ReplyBytes(calls[0])
    else
      calls == [] && after == before
  }

  /** `read_bar` in state `s` turned `before` into `after` making the bus-master calls `calls`. */
  predicate ReadBarOutcome(s: DevState, addr: nat, before: seq<bv8>, after: seq<bv8>, calls: seq<BusMasterCall>)
  {
    match Window(s, addr)
    case MixerWindow(offset) => calls == [] && after == MixerReadBytes(s.mixer, offset, before)
    case BusMasterWindow(offset) => BusMasterReadOutcome(offset, before, after, calls)
    case NoWindow => calls == [] && after == before
  }

  // ---------------------------------------------------------------------------
  // BAR allocation

  datatype PciDeviceError =
    | IoAllocationFailed(size: nat, allocError: AllocError)
    | IoRegistrationFailed(address: nat, configError: PciConfigError)

  /** What `allocate_io_bars` returns, the configuration space it leaves, and the requests it made. */
  datatype AllocationOutcome = AllocationOutcome(
    result: Result<seq<(nat, nat)>, PciDeviceError>,
    config: PciConfiguration,
    requests: seq<AllocRequest>)

  /** The allocator request for BAR0 (mixer) or BAR1 (bus master): low MMIO, aligned to its own size. */
  function BarRequest(address: PciAddress, bar: nat): AllocRequest
    requires bar == 0 || bar == 1
  {
    if bar == 0 then
      AllocRequest(Low, MIXER_REGS_SIZE, PciBar(address.bus, address.dev, address.func, 0),
                   "ac97-mixer_regs", MIXER_REGS_SIZE)
    else
      AllocRequest(Low, MASTER_REGS_SIZE, PciBar(address.bus, address.dev, address.func, 1),
                   "ac97-master_regs", MASTER_REGS_SIZE)
  }

  /**
   * `allocate_io_bars` for a device at `address`: allocate and register BAR0, then
   * BAR1, stopping at the first failure; `replies` are the allocator's answers.
   */
  function IoBarsAllocation(config: PciConfiguration, address: PciAddress, replies: seq<Result<nat, AllocError>>): (o: AllocationOutcome)
    ensures o.requests == [BarRequest(address, 0)] || o.requests == [BarRequest(address, 0), BarRequest(address, 1)]
    ensures o.config == config.(bars := o.config.bars)
    ensures forall k :: k in config.bars ==> k in o.config.bars && o.config.bars[k] == config.bars[k]
    ensures o.config.bars.Keys <= config.bars.Keys + {0, 1}
    ensures o.result.Ok? ==> o.config.bars.Keys == config.bars.Keys + {0, 1}
  {
    var mixerAddr := NextReply(replies, 0);
    if mixerAddr.Err? then
      AllocationOutcome(Err(IoAllocationFailed(MIXER_REGS_SIZE, mixerAddr.error)), config, [BarRequest(address, 0)])
    else
      var withMixer := AddPciBar(config, PciBarConfiguration(0, mixerAddr.value, MIXER_REGS_SIZE));
      if withMixer.Err? then
        AllocationOutcome(Err(IoRegistrationFailed(mixerAddr.value, withMixer.error)), config, [BarRequest(address, 0)])
      else
        var masterAddr := NextReply(replies, 1);
        var requests := [BarRequest(address, 0), BarRequest(address, 1)];
        if masterAddr.Err? then
          AllocationOutcome(Err(IoAllocationFailed(MASTER_REGS_SIZE, masterAddr.error)), withMixer.value, requests)
        else
          var withMaster := AddPciBar(withMixer.value, PciBarConfiguration(1, masterAddr.value, MASTER_REGS_SIZE));
          if withMaster.Err? then
            AllocationOutcome(Err(IoRegistrationFailed(masterAddr.value, withMaster.error)), withMixer.value, requests)
          else
            AllocationOutcome(Ok([(mixerAddr.value, MIXER_REGS_SIZE), (masterAddr.value, MASTER_REGS_SIZE)]),
                              withMaster.value, requests)
  }

  /**
   * Allocation succeeds exactly when both allocations succeed and neither BAR index
   * is taken; it then returns the mixer range and the bus-master range in that
   * order, registered as BAR0 and BAR1, after requesting each aligned to its size.
   */
  lemma AllocateIoBarsSuccess(config: PciConfiguration, address: PciAddress, replies: seq<Result<nat, AllocError>>)
    ensures var o := IoBarsAllocation(config, address, replies);
      && (o.result.Ok? <==> (NextReply(replies, 0).Ok? && NextReply(replies, 1).Ok?
                             && 0 !in config.bars && 1 !in config.bars))
      && (o.result.Ok? ==>
            && o.result.value == [(replies[0].value, MIXER_REGS_SIZE), (replies[1].value, MASTER_REGS_SIZE)]
            && GetBarAddr(o.config, 0) == replies[0].value && o.config.bars[0].size == MIXER_REGS_SIZE
            && GetBarAddr(o.config, 1) == replies[1].value && o.config.bars[1].size == MASTER_REGS_SIZE
            && o.config.bars.Keys == config.bars.Keys + {0, 1}
            && o.requests == [BarRequest(address, 0), BarRequest(address, 1)]
            && (forall q :: q in o.requests ==> q.alignment == q.size))
  {
  }

  /**
   * The first failing step decides the error, and no later step is attempted:
   * a failure on BAR0 makes one request and leaves configuration space as it was;
   * a failure on BAR1 leaves BAR0 registered.
   */
  lemma AllocateIoBarsFirstFailure(config: PciConfiguration, address: PciAddress, replies: seq<Result<nat, AllocError>>)
    ensures var o := IoBarsAllocation(config, address, replies);
      && (NextReply(replies, 0).Err? ==>
            o.result == Err(IoAllocationFailed(MIXER_REGS_SIZE, NextReply(replies, 0).error))
            && o.requests == [BarRequest(address, 0)] && o.config == config)
      && (NextReply(replies, 0).Ok? && 0 in config.bars ==>
            o.result == Err(IoRegistrationFailed(replies[0].value, BarInUse(0)))
            && o.requests == [BarRequest(address, 0)] && o.config == config)
      && (NextReply(replies, 0).Ok? && 0 !in config.bars && NextReply(replies, 1).Err? ==>
            o.result == Err(IoAllocationFailed(MASTER_REGS_SIZE, NextReply(replies, 1).error))
            && o.requests == [BarRequest(address, 0), BarRequest(address, 1)]
            && o.config.bars == config.bars[0 := PciBarConfiguration(0, replies[0].value, MIXER_REGS_SIZE)])
      && (NextReply(replies, 0).Ok? && 0 !in config.bars && NextReply(replies, 1).Ok? && 1 in config.bars ==>
            o.result == Err(IoRegistrationFailed(replies[1].value, BarInUse(1)))
            && o.requests == [BarRequest(address, 0), BarRequest(address, 1)]
            && o.config.bars == config.bars[0 := PciBarConfiguration(0, replies[0].value, MIXER_REGS_SIZE)])
  {
  }

  /** BARs are assigned once: after a successful allocation, a second one cannot succeed. */
  lemma AllocateIoBarsOnce(config: PciConfiguration, address: PciAddress,
                           replies: seq<Result<nat, AllocError>>, later: seq<Result<nat, AllocError>>)
    requires IoBarsAllocation(config, address, replies).result.Ok?
    ensures IoBarsAllocation(IoBarsAllocation(config, address, replies).config, address, later).result.Err?
  {
    AllocateIoBarsSuccess(config, address, replies);
  }

  // ---------------------------------------------------------------------------
  // The interrupt-handle handoff

  /**
   * The two slots are filled and emptied together, and the deliveries logged so far
   * plus the one still pending never exceed the number of `assign_irq` calls.
   */
  ghost predicate HandoffInvariant(s: DevState)
  {
    && (s.irqEvt.Some? <==> s.irqResampleEvt.Some?)
    && Handoffs(s.log) + (if s.irqEvt.Some? then 1 else 0) <= s.fills
  }

  /** A write delivers the handles exactly when it hits the bus-master window with both slots full. */
  lemma WriteBarHandoffs(s: DevState, addr: nat, data: seq<bv8>)
    ensures var s' := BarWritten(s, addr, data);
      && Handoffs(s'.log) == Handoffs(s.log) +
           (if Window(s, addr).BusMasterWindow? && s.irqEvt.Some? && s.irqResampleEvt.Some? then 1 else 0)
      && (Window(s, addr).BusMasterWindow? ==> s'.irqEvt == None && s'.irqResampleEvt == None)
      && (!Window(s, addr).BusMasterWindow? ==> s'.irqEvt == s.irqEvt && s'.irqResampleEvt == s.irqResampleEvt)
      && s'.config == s.config && s'.fills == s.fills
  {
    var s' := BarWritten(s, addr, data);
    match Window(s, addr)
    case MixerWindow(offset) =>
      HandoffsAppend(s.log, [MixerSettingsUpdate(s'.mixer)]);
    case BusMasterWindow(offset) =>
      var h := IrqHandoff(s);
      HandoffsAppend(s.log, h.log[|s.log|..]);
      assert s.log + h.log[|s.log|..] == h.log;
      HandoffsAppend(h.log, BusMasterWriteCalls(offset, data, s.mixer));
    case NoWindow =>
  }

  lemma WriteBarKeepsHandoffInvariant(s: DevState, addr: nat, data: seq<bv8>)
    requires HandoffInvariant(s)
    ensures HandoffInvariant(BarWritten(s, addr, data))
  {
    WriteBarHandoffs(s, addr, data);
  }

  lemma AssignIrqKeepsHandoffInvariant(s: DevState, irqEvt: EventFd, irqResampleEvt: EventFd, irqNum: bv32, irqPin: PciInterruptPin)
    requires HandoffInvariant(s)
    ensures HandoffInvariant(AssignedIrq(s, irqEvt, irqResampleEvt, irqNum, irqPin))
  {
  }

  /**
   * After one bus-master write, the next write delivers nothing: the one-write case
   * of `NoLaterHandoff`.
   */
  lemma NoSecondHandoff(s: DevState, addr1: nat, data1: seq<bv8>, addr2: nat, data2: seq<bv8>)
    requires Window(s, addr1).BusMasterWindow?
    ensures var s1 := BarWritten(s, addr1, data1);
      Handoffs(BarWritten(s1, addr2, data2).log) == Handoffs(s1.log)
  {
    var s1 := BarWritten(s, addr1, data1);
    WriteBarHandoffs(s, addr1, data1);
    WriteBarHandoffs(s1, addr2, data2);
  }

  /** `write_bar` applied to each (address, data) pair in turn. */
  function BarWrites(s: DevState, ws: seq<(nat, seq<bv8>)>): DevState
    decreases |ws|
  {
    if ws == [] then s else BarWrites(BarWritten(s, ws[0].0, ws[0].1), ws[1..])
  }

  /** With both slots empty, no sequence of writes delivers the handles, and the slots stay empty. */
  lemma {:induction false} EmptySlotsNeverHandOff(s: DevState, ws: seq<(nat, seq<bv8>)>)
    requires s.irqEvt == None && s.irqResampleEvt == None
    ensures Handoffs(BarWrites(s, ws).log) == Handoffs(s.log)
    ensures BarWrites(s, ws).irqEvt == None && BarWrites(s, ws).irqResampleEvt == None
    decreases |ws|
  {
    if ws != [] {
      WriteBarHandoffs(s, ws[0].0, ws[0].1);
      EmptySlotsNeverHandOff(BarWritten(s, ws[0].0, ws[0].1), ws[1..]);
    }
  }

  /** After one bus-master write, no later sequence of writes delivers the handles again. */
  lemma NoLaterHandoff(s: DevState, addr: nat, data: seq<bv8>, ws: seq<(nat, seq<bv8>)>)
    requires Window(s, addr).BusMasterWindow?
    ensures var s1 := BarWritten(s, addr, data);
      Handoffs(BarWrites(s1, ws).log) == Handoffs(s1.log)
  {
    WriteBarHandoffs(s, addr, data);
    EmptySlotsNeverHandOff(BarWritten(s, addr, data), ws);
  }

  /** Once refilled, the next bus-master write delivers the new handles, before its own call. */
  lemma RefillThenHandoff(s: DevState, irqEvt: EventFd, irqResampleEvt: EventFd, irqNum: bv32,
                          irqPin: PciInterruptPin, addr: nat, data: seq<bv8>)
    requires Window(AssignedIrq(s, irqEvt, irqResampleEvt, irqNum, irqPin), addr).BusMasterWindow?
    ensures var s1 := AssignedIrq(s, irqEvt, irqResampleEvt, irqNum, irqPin);
      BarWritten(s1, addr, data).log ==
        s.log + [IrqEventFdHandoff(irqEvt, irqResampleEvt)] + BusMasterWriteCalls(Window(s1, addr).offset, data, s.mixer)
  {
  }

  // ---------------------------------------------------------------------------
  // Width dispatch and packing

  /**
   * A mixer-window write of any length updates the bus master's mixer settings
   * exactly once; a 2-byte write stores `data[0] | data[1] << 8`, any other length
   * leaves the mixer as it was. Nothing else changes.
   */
  lemma MixerWindowWrite(s: DevState, addr: nat, data: seq<bv8>)
    requires Window(s, addr).MixerWindow?
    ensures var s' := BarWritten(s, addr, data);
      && s'.mixer == (if |data| == 2 then s.mixer[Window(s, addr).offset := Le16Value(data[0], data[1])] else s.mixer)
      && s'.log == s.log + [MixerSettingsUpdate(s'.mixer)]
      && s' == s.(mixer := s'.mixer, log := s'.log)
  {
  }

  /** A 2-byte mixer write followed by a 2-byte read at the same address gives back the two bytes. */
  lemma MixerWriteReadRoundTrip(s: DevState, addr: nat, b0: bv8, b1: bv8,
                                before: seq<bv8>, after: seq<bv8>, calls: seq<BusMasterCall>)
    requires Window(s, addr).MixerWindow?
    requires |before| == 2
    requires ReadBarOutcome(BarWritten(s, addr, [b0, b1]), addr, before, after, calls)
    ensures after == [b0, b1] && calls == []
  {
    Le16BytesOfValue(b0, b1);
  }

  /** A mixer read of any length other than 2 changes neither the buffer nor anything else. */
  lemma MixerBadWidthRead(s: DevState, addr: nat, before: seq<bv8>, after: seq<bv8>, calls: seq<BusMasterCall>)
    requires Window(s, addr).MixerWindow? && |before| != 2
    requires ReadBarOutcome(s, addr, before, after, calls)
    ensures after == before && calls == []
  {
  }

  /**
   * A bus-master-window write of 1, 2 or 4 bytes makes exactly one call, to the
   * byte, word or long accessor, whose value re-encodes to the written bytes;
   * any other length makes no bus-master call.
   */
  lemma BusMasterWindowWrite(s: DevState, addr: nat, data: seq<bv8>)
    requires Window(s, addr).BusMasterWindow?
    ensures var off := Window(s, addr).offset;
      var calls := BusMasterWriteCalls(off, data, s.mixer);
      && BarWritten(s, addr, data).log == IrqHandoff(s).log + calls
      && BarWritten(s, addr, data).mixer == s.mixer
      && (|data| == 1 ==> calls == [WriteB(off, data[0], s.mixer)])
      && (|data| == 2 ==> |calls| == 1 && calls[0].WriteW? && calls[0].offset == off && Le16Bytes(calls[0].wordValue) == data)
      && (|data| == 4 ==> |calls| == 1 && calls[0].WriteL? && calls[0].offset == off && Le32Bytes(calls[0].longValue) == data)
      && (|data| != 1 && |data| != 2 && |data| != 4 ==> calls == [])
  {
    if |data| == 2 {
      Le16BytesOfValue(data[0], data[1]);
      assert data == [data[0], data[1]];
    } else if |data| == 4 {
      Le32BytesOfValue(data);
    }
  }

  /**
   * A bus-master read of 1, 2 or 4 bytes calls the matching accessor once and the
   * buffer decodes back to the value it returned; other lengths make no call and
   * leave the buffer alone.
   */
  lemma BusMasterWindowRead(s: DevState, addr: nat, before: seq<bv8>, after: seq<bv8>, calls: seq<BusMasterCall>)
    requires Window(s, addr).BusMasterWindow?
    requires ReadBarOutcome(s, addr, before, after, calls)
    ensures |before| == 1 ==> |calls| == 1 && calls[0].ReadB? && after == [calls[0].byteResult]
    ensures |before| == 2 ==> |calls| == 1 && calls[0].ReadW? && Le16Value(after[0], after[1]) == calls[0].wordResult
    ensures |before| == 4 ==> |calls| == 1 && calls[0].ReadL? && Le32Value(after) == calls[0].longResult
    ensures |before| != 1 && |before| != 2 && |before| != 4 ==> calls == [] && after == before
    ensures forall c :: c in calls ==> c.offset == Window(s, addr).offset
  {
    if |before| == 2 {
      Le16ValueOfBytes(calls[0].wordResult);
    } else if |before| == 4 {
      Le32ValueOfBytes(calls[0].longResult);
    }
  }

  /** Reads never deliver the interrupt handles. */
  lemma ReadsNeverHandOff(s: DevState, addr: nat, before: seq<bv8>, after: seq<bv8>, calls: seq<BusMasterCall>)
    requires ReadBarOutcome(s, addr, before, after, calls)
    ensures Handoffs(calls) == 0
    ensures forall c :: c in calls ==> !c.IrqEventFdHandoff?
  {
  }

  /** An access outside both windows is a no-op. */
  lemma UnmappedAccessIsNoop(s: DevState, addr: nat, before: seq<bv8>, after: seq<bv8>, calls: seq<BusMasterCall>)
    requires Window(s, addr).NoWindow?
    ensures forall data :: BarWritten(s, addr, data) == s
    ensures ReadBarOutcome(s, addr, before, after, calls) ==> after == before && calls == []
  {
  }

  // ---------------------------------------------------------------------------
  // The device

  class Ac97Dev {
    var config: PciConfiguration
    var pciAddress: Option<PciAddress>
    // The interrupt handles wait here until the first bus-master write.
    var irqEvt: Option<EventFd>
    var irqResampleEvt: Option<EventFd>
    const busMaster: Ac97BusMaster
    const mixer: Ac97Mixer
    ghost var fills: nat

    ghost function State(): DevState
      reads this, mixer, busMaster
    {
      DevState(config, pciAddress, irqEvt, irqResampleEvt, mixer.regs, busMaster.log, fills)
    }

    ghost predicate Valid()
      reads this, mixer, busMaster
    {
      HandoffInvariant(State())
    }

    /** `Ac97Dev::new`. */
    constructor ()
      ensures Valid() && fresh(mixer) && fresh(busMaster)
      ensures State() == InitialState()
    {
      config := InitialConfiguration();
      pciAddress := None;
      irqEvt := None;
      irqResampleEvt := None;
      busMaster := new Ac97BusMaster();
      mixer := new Ac97Mixer();
      fills := 0;
    }

    method AssignAddress(address: PciAddress)
      requires Valid()
      modifies this
      ensures Valid() && State() == AssignedAddress(old(State()), address)
    {
      pciAddress := Some(address);
    }

    method AssignIrq(irqEvt: EventFd, irqResampleEvt: EventFd, irqNum: bv32, irqPin: PciInterruptPin)
      requires Valid()
      modifies this
      ensures Valid() && State() == AssignedIrq(old(State()), irqEvt, irqResampleEvt, irqNum, irqPin)
    {
      AssignIrqKeepsHandoffInvariant(State(), irqEvt, irqResampleEvt, irqNum, irqPin);
      config := SetIrq(config, Low8(irqNum), irqPin);
      this.irqEvt := Some(irqEvt);
      this.irqResampleEvt := Some(irqResampleEvt);
      fills := fills + 1;
    }

    /** `allocate_io_bars`; calling it before `assign_address` is a programming error. */
    method AllocateIoBars(resources: SystemAllocator) returns (r: Result<seq<(nat, nat)>, PciDeviceError>)
      requires Valid() && pciAddress.Some?
      modifies this, resources
      ensures var o := IoBarsAllocation(old(config), old(pciAddress).value, old(resources.replies));
        && r == o.result && config == o.config
        && resources.requests == old(resources.requests) + o.requests
        && resources.replies == old(resources.replies)[if |o.requests| < |old(resources.replies)| then |o.requests| else |old(resources.replies)|..]
      ensures Valid() && State() == old(State()).(config := config)
    {
      var address := pciAddress.value;
      ghost var replies0 := resources.replies;
      var mixerAddr := resources.AllocateWithAlign(Low, MIXER_REGS_SIZE, PciBar(address.bus, address.dev, address.func, 0),
                                                   "ac97-mixer_regs", MIXER_REGS_SIZE);
      if mixerAddr.Err? {
        return Err(IoAllocationFailed(MIXER_REGS_SIZE, mixerAddr.error));
      }
      var withMixer := AddPciBar(config, PciBarConfiguration(0, mixerAddr.value, MIXER_REGS_SIZE));
      if withMixer.Err? {
        return Err(IoRegistrationFailed(mixerAddr.value, withMixer.error));
      }
      config := withMixer.value;
      assert NextReply(replies0, 1) == NextReply(resources.replies, 0);
      var ranges := [(mixerAddr.value, MIXER_REGS_SIZE as nat)];

      var masterAddr := resources.AllocateWithAlign(Low, MASTER_REGS_SIZE, PciBar(address.bus, address.dev, address.func, 1),
                                                    "ac97-master_regs", MASTER_REGS_SIZE);
      if masterAddr.Err? {
        return Err(IoAllocationFailed(MASTER_REGS_SIZE, masterAddr.error));
      }
      var withMaster := AddPciBar(config, PciBarConfiguration(1, masterAddr.value, MASTER_REGS_SIZE));
      if withMaster.Err? {
        return Err(IoRegistrationFailed(masterAddr.value, withMaster.error));
      }
      config := withMaster.value;
      ranges := ranges + [(masterAddr.value, MASTER_REGS_SIZE as nat)];
      assert ranges == [(mixerAddr.value, MIXER_REGS_SIZE as nat), (masterAddr.value, MASTER_REGS_SIZE as nat)];
      assert masterAddr == NextReply(replies0, 1);
      return Ok(ranges);
    }

    method ReadMixer(offset: nat, data: array<bv8>)
      modifies data
      ensures data[..] == MixerReadBytes(mixer.regs, offset, old(data[..]))
    {
      if data.Length == 2 {
        var val := mixer.Readw(offset);
        data[0] := Low8(val as bv32);
        data[1] := Low8((val >> 8) as bv32);
      }
    }

    method WriteMixer(offset: nat, data: seq<bv8>)
      modifies mixer, busMaster
      ensures State() == MixerWritten(old(State()), offset, data)
      ensures Handoffs(busMaster.log) == Handoffs(old(busMaster.log))
    {
      if |data| == 2 {
        mixer.Writew(offset, Le16Value(data[0], data[1]));
      }
      busMaster.UpdateMixerSettings(mixer.regs);
      HandoffsAppend(old(busMaster.log), [MixerSettingsUpdate(mixer.regs)]);
    }

    method ReadBusMaster(offset: nat, data: array<bv8>)
      modifies data, busMaster
      ensures |busMaster.log| >= |old(busMaster.log)| && busMaster.log[..|old(busMaster.log)|] == old(busMaster.log)
      ensures BusMasterReadOutcome(offset, old(data[..]), data[..], busMaster.log[|old(busMaster.log)|..])
      ensures Handoffs(busMaster.log) == Handoffs(old(busMaster.log))
    {
      ghost var log0 := busMaster.log;
      if data.Length == 1 {
        var v := busMaster.Readb(offset);
        data[0] := v;
      } else if data.Length == 2 {
        var v := busMaster.Readw(offset);
        data[0] := Low8(v as bv32);
        data[1] := Low8((v >> 8) as bv32);
      } else if data.Length == 4 {
        var v := busMaster.Readl(offset);
        data[0] := Low8(v);
        data[1] := Low8(v >> 8);
        data[2] := Low8(v >> 16);
        data[3] := Low8(v >> 24);
      }
      assert busMaster.log[..|log0|] == log0;
      assert busMaster.log == log0 + busMaster.log[|log0|..];
      HandoffsAppend(log0, busMaster.log[|log0|..]);
    }

    method WriteBusMaster(offset: nat, data: seq<bv8>)
      modifies busMaster
      ensures State() == BusMasterWritten(old(State()), offset, data)
      ensures Handoffs(busMaster.log) == Handoffs(old(busMaster.log))
    {
      if |data| == 1 {
        busMaster.Writeb(offset, data[0], mixer.regs);
      } else if |data| == 2 {
        busMaster.Writew(offset, Le16Value(data[0], data[1]));
      } else if |data| == 4 {
        busMaster.Writel(offset, Le32Value(data));
      }
      HandoffsAppend(old(busMaster.log), BusMasterWriteCalls(offset, data, mixer.regs));
    }

    /** `read_bar`: only the buffer and the bus-master log change. */
    method ReadBar(addr: nat, data: array<bv8>)
      requires Valid()
      modifies data, busMaster
      ensures Valid()
      ensures |busMaster.log| >= |old(busMaster.log)| && busMaster.log[..|old(busMaster.log)|] == old(busMaster.log)
      ensures State() == old(State()).(log := busMaster.log)
      ensures ReadBarOutcome(old(State()), addr, old(data[..]), data[..], busMaster.log[|old(busMaster.log)|..])
    {
      ghost var s0 := State();
      var bar0 := GetBarAddr(config, 0);
      var bar1 := GetBarAddr(config, 1);
      if bar0 <= addr < bar0 + MIXER_REGS_SIZE {
        ReadMixer(addr - bar0, data);
        assert busMaster.log[..|s0.log|] == s0.log;
      } else if bar1 <= addr < bar1 + MASTER_REGS_SIZE {
        ReadBusMaster(addr - bar1, data);
      } else {
        assert busMaster.log[..|s0.log|] == s0.log;
      }
      ghost var calls := busMaster.log[|s0.log|..];
      assert busMaster.log == s0.log + calls;
      ReadsNeverHandOff(s0, addr, old(data[..]), data[..], calls);
      HandoffsAppend(s0.log, calls);
    }

    /** `write_bar`. */
    method WriteBar(addr: nat, data: seq<bv8>)
      requires Valid()
      modifies this, mixer, busMaster
      ensures Valid() && State() == BarWritten(old(State()), addr, data)
    {
      ghost var s0 := State();
      var bar0 := GetBarAddr(config, 0);
      var bar1 := GetBarAddr(config, 1);
      if bar0 <= addr < bar0 + MIXER_REGS_SIZE {
        WriteMixer(addr - bar0, data);
        assert State() == BarWritten(s0, addr, data);
      } else if bar1 <= addr < bar1 + MASTER_REGS_SIZE {
        // Both slots are taken before the match, as `(a.take(), b.take())` does.
        var evt, resampleEvt := irqEvt, irqResampleEvt;
        irqEvt, irqResampleEvt := None, None;
        if evt.Some? && resampleEvt.Some? {
          busMaster.SetIrqEventFd(evt.value, resampleEvt.value);
        }
        assert State() == IrqHandoff(s0);
        WriteBusMaster(addr - bar1, data);
        assert State() == BarWritten(s0, addr, data);
      }
      WriteBarKeepsHandoffInvariant(s0, addr, data);
    }
  }
}
