/**
 * The two register banks behind the AC97 BARs, modelled only as far as the PCI
 * front-end sees them: the mixer as a map from offset to a 16-bit value behind
 * `readw`/`writew`, and the bus master as an opaque register file together with a
 * log of every call the front-end makes on it. Their real logic (DMA descriptor
 * rings, CIV/LVI/PICB, interrupt generation) is not part of this model.
 */
module Ac97Parts {

  type PosInt = n: nat | n > 0 witness 1

  /** Size of the mixer window (BAR0); its value is not part of this model. */
  const MIXER_REGS_SIZE: PosInt

  /** Size of the bus-master window (BAR1); its value is not part of this model. */
  const MASTER_REGS_SIZE: PosInt

  /** An interrupt event handle, treated as an opaque token. */
  datatype EventFd = EventFd(id: nat)

  /** The value the mixer bank answers for an offset; offsets never written read 0. */
  function MixerValue(regs: map<nat, bv16>, offset: nat): (v: bv16)
    ensures offset in regs ==> v == regs[offset]
    ensures offset !in regs ==> v == 0
  {
    if offset in regs then regs[offset] else 0
  }

  class Ac97Mixer {
    var regs: map<nat, bv16>

    constructor ()
      ensures regs == map[]
    {
      regs := map[];
    }

    method Readw(offset: nat) returns (v: bv16)
      ensures v == MixerValue(regs, offset)
    {
      v := MixerValue(regs, offset);
    }

    method Writew(offset: nat, v: bv16)
      modifies this
      ensures regs == old(regs)[offset := v]
    {
      regs := regs[offset := v];
    }
  }

  /** One call made on the bus master; reads record the value they returned. */
  datatype BusMasterCall =
    | ReadB(offset: nat, byteResult: bv8)
    | ReadW(offset: nat, wordResult: bv16)
    | ReadL(offset: nat, longResult: bv32)
    | WriteB(offset: nat, byteValue: bv8, mixer: map<nat, bv16>)
    | WriteW(offset: nat, wordValue: bv16)
    | WriteL(offset: nat, longValue: bv32)
    | MixerSettingsUpdate(mixer: map<nat, bv16>)
    | IrqEventFdHandoff(irq: EventFd, resample: EventFd)

  /** Number of interrupt-handle deliveries in a call log. */
  function Handoffs(log: seq<BusMasterCall>): nat
  {
    if log == [] then 0
    else Handoffs(log[..|log| - 1]) + (if log[|log| - 1].IrqEventFdHandoff? then 1 else 0)
  }

  /** Counting deliveries distributes over appending to the log. */
  lemma {:induction false} HandoffsAppend(a: seq<BusMasterCall>, b: seq<BusMasterCall>)
    ensures Handoffs(a + b) == Handoffs(a) + Handoffs(b)
    decreases |b|
  {
    if b == [] {
      assert a + b == a;
    } else {
      var b' := b[..|b| - 1];
      assert (a + b)[..|a + b| - 1] == a + b';
      HandoffsAppend(a, b');
    }
  }

  /**
   * The bus master as the front-end sees it. `byteRegs`, `wordRegs` and `longRegs`
   * are placeholders for its register state that nothing in this model writes;
   * the contracts promise nothing about the values read or about how a call
   * changes that state, only that the call is recorded in `log`.
   */
  class Ac97BusMaster {
    var byteRegs: map<nat, bv8>
    var wordRegs: map<nat, bv16>
    var longRegs: map<nat, bv32>
    ghost var log: seq<BusMasterCall>

    constructor ()
      ensures log == []
    {
      byteRegs, wordRegs, longRegs := map[], map[], map[];
      log := [];
    }

    method Readb(offset: nat) returns (v: bv8)
      modifies this
      ensures log == old(log) + [ReadB(offset, v)]
    {
      v := if offset in byteRegs then byteRegs[offset] else 0;
      log := log + [ReadB(offset, v)];
    }

    method Readw(offset: nat) returns (v: bv16)
      modifies this
      ensures log == old(log) + [ReadW(offset, v)]
    {
      v := if offset in wordRegs then wordRegs[offset] else 0;
      log := log + [ReadW(offset, v)];
    }

    method Readl(offset: nat) returns (v: bv32)
      modifies this
      ensures log == old(log) + [ReadL(offset, v)]
    {
      v := if offset in longRegs then longRegs[offset] else 0;
      log := log + [ReadL(offset, v)];
    }

    method Writeb(offset: nat, v: bv8, mixer: map<nat, bv16>)
      modifies this
      ensures log == old(log) + [WriteB(offset, v, mixer)]
    {
      log := log + [WriteB(offset, v, mixer)];
    }

    method Writew(offset: nat, v: bv16)
      modifies this
      ensures log == old(log) + [WriteW(offset, v)]
    {
      log := log + [WriteW(offset, v)];
    }

    method Writel(offset: nat, v: bv32)
      modifies this
      ensures log == old(log) + [WriteL(offset, v)]
    {
      log := log + [WriteL(offset, v)];
    }

    method UpdateMixerSettings(mixer: map<nat, bv16>)
      modifies this
      ensures log == old(log) + [MixerSettingsUpdate(mixer)]
    {
      log := log + [MixerSettingsUpdate(mixer)];
    }

    method SetIrqEventFd(irq: EventFd, resample: EventFd)
      modifies this
      ensures log == old(log) + [IrqEventFdHandoff(irq, resample)]
    {
      log := log + [IrqEventFdHandoff(irq, resample)];
    }
  }
}
