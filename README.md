# AC97 PCI front-end and virtio-video format types, in Dafny

This project models two pieces of crosvm.

- **The PCI front-end of the emulated AC97 sound card** (`Ac97Dev`). It covers:
  - backend selection from a string;
  - the PCI identity the device presents;
  - address and interrupt assignment;
  - allocation and registration of its two I/O BARs: BAR0, the mixer, and BAR1, the bus master;
  - dispatch of guest BAR reads and writes by address window and access width, with little-endian packing;
  - the one-shot handoff of the interrupt event handles to the bus master on the first bus-master write.
- **The format vocabulary of the virtio video device**. It covers:
  - codec profiles and the format each belongs to;
  - the two-way mapping between profiles and libvda profiles;
  - the plain structures copied to and from their virtio wire forms;
  - the two format responses, a frame format and a format description, written into a descriptor chain.

Files:

- `wrappers.dfy`: `Option` and `Result`.
- `little_endian.dfy`: packing of `u16`/`u32` values into bytes, low byte first, and back.
- `pci.dfy`: the parts of the PCI library the device uses:
  - `PciConfiguration`, with `new`, `set_irq`, `add_pci_bar` and `get_bar_addr`;
  - the system allocator's `allocate_with_align`, modelled as a script of replies.
- `ac97_parts.dfy`: the mixer and the bus master as the front-end sees them. The mixer is a map of 16-bit registers. For the bus master, the model records a log of every call the front-end makes.
- `ac97.dfy`: `Ac97Dev`. `DevState` snapshots everything the front-end can observe. Each operation is a function on that state, and the class's methods are proved to follow those functions. The lemmas state the dispatch, packing, allocation and handoff properties.
- `virtio_writer.dfy`: the descriptor-chain `Writer`. It is an append-only record sequence with a finite remaining room; a record that does not fit is not written, and the write fails. A sequence write appends the records that fit before failing.
- `video_format.dfy`: the video side — libvda's profiles and the format module.

Two interpretation points, where the code decides:

- `write_bar` takes both interrupt slots before testing them. A delivery therefore happens only when both were filled, and either way both slots are empty afterwards.
- The result of `FormatDesc::write` is collected from the frame-format writes. Collecting into a `Result` stops at the first error, so later frame formats are not written.

## Model

| member | source | states |
|---|---|---|
| `Ac97.ParseBackend` | devices/src/pci/ac97.rs:65-74 | "cras" gives CRAS and "null" gives NULL; each holds in both directions. Every other string gives `InvalidBackend`. |
| `Ac97.DefaultBackend` | devices/src/pci/ac97.rs:43-47 | The default backend is the one the name "null" selects. |
| `Ac97.DefaultBackendIsNull` | devices/src/pci/ac97.rs:43-47 | The default backend is NULL, the one "null" selects. Every backend is reachable from its name. |
| `Ac97.ClassifyAddress` | devices/src/pci/ac97.rs:305-315 | An address is in the mixer window iff it lies in `[bar0, bar0 + MIXER_REGS_SIZE)`. It is in the bus-master window iff it is outside that and inside `[bar1, bar1 + MASTER_REGS_SIZE)`; the mixer window wins on overlap. The offset returned is the distance from the window base and lies below the window size. |
| `Ac97.ClassifyAddressReachesOffsets` | devices/src/pci/ac97.rs:305-315 | Every mixer offset is reached from BAR0. Every bus-master offset is reached from BAR1 when the two windows are disjoint. |
| `Ac97.InitialState` | devices/src/pci/ac97.rs:98-117 | A new device has vendor 0x8086, device 0x2415 and subsystem 0x8086:0x1. It is a multimedia audio device with a standard header, no programming interface, no BARs and no IRQ. It has no PCI address, both interrupt slots are empty, the mixer is untouched and no bus-master call has been made. |
| `Ac97.IoBarsAllocation` | devices/src/pci/ac97.rs:236-287 | Allocation requests BAR0, then possibly BAR1, and nothing else. It changes configuration space only in its BARs, keeps every BAR already registered, and adds at most BARs 0 and 1. On success it adds exactly BARs 0 and 1. |
| `Ac97.AllocateIoBarsSuccess` | devices/src/pci/ac97.rs:236-287 | Allocation succeeds iff both allocator requests succeed and BAR indices 0 and 1 are free. On success: it returns the mixer range, then the bus-master range; it registers them as BAR0 and BAR1 with their sizes; it adds exactly those two BARs; and it makes both requests in order, each aligned to its own size. |
| `Ac97.AllocateIoBarsFirstFailure` | devices/src/pci/ac97.rs:239-284 | The first failing step decides the error: an allocation failure carries the size, a registration failure carries the address and the index in use. A failure on BAR0, allocation or registration, makes only the BAR0 request and leaves configuration space unchanged. A failure on BAR1, allocation or registration, makes both requests in order and leaves exactly BAR0 added. |
| `Ac97.AllocateIoBarsOnce` | devices/src/pci/ac97.rs:262-283 | After a successful allocation, a second allocation on the resulting configuration fails, whatever the allocator answers. |
| `Ac97Parts.HandoffsAppend` | devices/src/pci/ac97.rs:317-332 | The number of handle deliveries in a log appended to another is the sum of the two counts. |
| `Ac97.BarWritten` | devices/src/pci/ac97.rs:317-332 | A BAR write never changes configuration space, the PCI address or the `assign_irq` count. The bus-master log only grows. A write in the bus-master window empties both slots, and any other write leaves them alone. Outside the mixer window the mixer is unchanged. |
| `Ac97.WriteBarHandoffs` | devices/src/pci/ac97.rs:317-332 | A BAR write delivers the handles exactly once when it lands in the bus-master window with both slots full, and never otherwise. A bus-master-window write empties both slots. Any other write leaves them as they were. The configuration is unchanged. |
| `Ac97.WriteBarKeepsHandoffInvariant` | devices/src/pci/ac97.rs:317-332 | A write keeps the invariant: the two slots are full together, and deliveries (made plus pending) never exceed the number of `assign_irq` calls. |
| `Ac97.AssignIrqKeepsHandoffInvariant` | devices/src/pci/ac97.rs:224-234 | `assign_irq` keeps the same invariant. |
| `Ac97.NoSecondHandoff` | devices/src/pci/ac97.rs:322-328 | After one bus-master write, the next write delivers no handles. This is the one-write case of `NoLaterHandoff`. |
| `Ac97.EmptySlotsNeverHandOff` | devices/src/pci/ac97.rs:317-332 | With both slots empty, no sequence of BAR writes delivers the handles, and both slots stay empty. |
| `Ac97.NoLaterHandoff` | devices/src/pci/ac97.rs:317-332 | After one bus-master write, no later sequence of BAR writes without `assign_irq` delivers the handles again. |
| `Ac97.RefillThenHandoff` | devices/src/pci/ac97.rs:224-234 | After `assign_irq`, the next bus-master write logs the delivery of exactly the handles just assigned, followed by that write's own call. |
| `Ac97.MixerWindowWrite` | devices/src/pci/ac97.rs:166-176 | A mixer-window write of 2 bytes stores `data[0] \| data[1] << 8` at the offset. Any other length leaves the mixer unchanged. Either way the bus master's mixer settings are updated exactly once and nothing else changes. |
| `Ac97.MixerWriteReadRoundTrip` | devices/src/pci/ac97.rs:154-176 | A 2-byte mixer write followed by a 2-byte read at the same address returns the written bytes and makes no bus-master call. |
| `Ac97.MixerBadWidthRead` | devices/src/pci/ac97.rs:154-164 | A mixer read of any length other than 2 leaves the buffer untouched. |
| `Ac97.BusMasterWindowWrite` | devices/src/pci/ac97.rs:197-212 | A bus-master write of 1, 2 or 4 bytes makes exactly one call to the byte, word or long accessor at the window offset. The value passed re-encodes to the written bytes, little-endian. Other lengths make no call and leave the mixer alone. |
| `Ac97.BusMasterWindowRead` | devices/src/pci/ac97.rs:178-195 | A bus-master read of 1, 2 or 4 bytes calls the matching accessor once at the window offset. The buffer then decodes, little-endian, to the value returned. Other lengths make no call and leave the buffer alone. |
| `Ac97.ReadsNeverHandOff` | devices/src/pci/ac97.rs:305-315 | No read delivers the interrupt handles. |
| `Ac97.UnmappedAccessIsNoop` | devices/src/pci/ac97.rs:305-332 | A read or write outside both windows changes nothing. |
| `Ac97.Ac97Dev.constructor` | devices/src/pci/ac97.rs:98-117 | The new device's state is `InitialState()`, and the invariant holds. |
| `Ac97.Ac97Dev.AssignAddress` | devices/src/pci/ac97.rs:220-222 | Only the PCI address changes; it is set to the one given. |
| `Ac97.Ac97Dev.AssignIrq` | devices/src/pci/ac97.rs:224-234 | Configuration space routes the IRQ number truncated to 8 bits, with the given pin. Both handle slots are filled. Nothing else changes. |
| `Ac97.Ac97Dev.AllocateIoBars` | devices/src/pci/ac97.rs:236-287 | It returns what `IoBarsAllocation` specifies, and leaves that configuration space. The allocator has received exactly the requests made and consumed one reply per request. Nothing else in the device changes. The method requires a PCI address, as the source does. |
| `Ac97.Ac97Dev.ReadMixer` | devices/src/pci/ac97.rs:154-164 | A 2-byte buffer receives the stored word, low byte first. Other lengths leave it untouched. |
| `Ac97.Ac97Dev.WriteMixer` | devices/src/pci/ac97.rs:166-176 | The new state is `MixerWritten(old state)`. A 2-byte write stores the little-endian word, any other length leaves the mixer unchanged, and in both cases one mixer-settings update carrying the new mixer is logged. No handles are delivered. |
| `Ac97.Ac97Dev.ReadBusMaster` | devices/src/pci/ac97.rs:178-195 | The buffer and the new bus-master calls satisfy `BusMasterReadOutcome`. A read of 1, 2 or 4 bytes makes one call to the accessor of that width, and the buffer receives its result little-endian. Other lengths make no call and leave the buffer alone. The log only grows, and no handles are delivered. |
| `Ac97.Ac97Dev.WriteBusMaster` | devices/src/pci/ac97.rs:197-212 | The new state is `BusMasterWritten(old state)`. Lengths 1, 2 and 4 make one byte, word or long call with the little-endian value of the bytes, and other lengths make none. No handles are delivered. |
| `Ac97.Ac97Dev.ReadBar` | devices/src/pci/ac97.rs:305-315 | The buffer and the new bus-master calls satisfy `ReadBarOutcome`. The log only grows, and no other device state changes. |
| `Ac97.Ac97Dev.WriteBar` | devices/src/pci/ac97.rs:317-332 | The new state is `BarWritten(old state)`, and the handoff invariant is kept. |
| `Ac97Parts.Ac97Mixer.Writew` | devices/src/pci/ac97.rs:166-173 | Stores the word at the offset and changes no other register. |
| `Pci.AddPciBar` | devices/src/pci/ac97.rs:259-261 | This is an assumed model of the PCI library's `add_pci_bar`, which is not part of this model; its contract describes the stand-in and is not a proved property of the library. Registering a BAR fails with `BarInUse` iff its index is already registered. Otherwise it adds exactly that BAR. |
| `LittleEndian.Low8` | devices/src/pci/ac97.rs:159-160 | `as u8` keeps the low 8 bits: the byte is the value mod 256. |
| `LittleEndian.Le16Value` | devices/src/pci/ac97.rs:171 | The `u16` built from two bytes is b0 + 256·b1. |
| `LittleEndian.Le16Bytes` | devices/src/pci/ac97.rs:183-184 | The two bytes written for a `u16` v satisfy b0 + 256·b1 = v. |
| `LittleEndian.Le32Value` | devices/src/pci/ac97.rs:205-208 | The `u32` built from four bytes is b0 + 2^8·b1 + 2^16·b2 + 2^24·b3. |
| `LittleEndian.Le32Bytes` | devices/src/pci/ac97.rs:188-191 | The four bytes written for a `u32` v satisfy b0 + 2^8·b1 + 2^16·b2 + 2^24·b3 = v. |
| `LittleEndian.Le16BytesOfValue` | devices/src/pci/ac97.rs:158-160 | Packing two bytes into a `u16` and unpacking it gives the bytes back. |
| `LittleEndian.Le16ValueOfBytes` | devices/src/pci/ac97.rs:200-202 | Unpacking a `u16` into two bytes and packing them gives the value back. |
| `LittleEndian.Le32BytesOfValue` | devices/src/pci/ac97.rs:186-190 | Packing four bytes into a `u32` and unpacking it gives the bytes back. |
| `LittleEndian.Le32ValueOfBytes` | devices/src/pci/ac97.rs:203-209 | Unpacking a `u32` into four bytes and packing them gives the value back. |
| `VideoFormat.ToFormat` | devices/src/virtio/video/format.rs:67-85 | Every profile maps to a bitstream format, never a raw one. |
| `VideoFormat.ToFormatFamilies` | devices/src/virtio/video/format.rs:67-85 | H264, HEVC, VP8 and VP9 are each reached from exactly their own family of profiles. |
| `VideoFormat.ProfileFamilySizes` | devices/src/virtio/video/format.rs:19-43 | The families have 11, 3, 4 and 4 members. |
| `VideoFormat.FromLibvdaProfile` | devices/src/virtio/video/format.rs:47-54 | A libvda profile maps to no profile exactly when the conversion table does not list it. |
| `VideoFormat.ToLibvdaProfile` | devices/src/virtio/video/format.rs:58-63 | Exactly VP8 profiles 1 to 3 have no libvda counterpart. Every libvda profile returned converts back to the profile it came from. |
| `VideoFormat.LibvdaConversionsInverse` | devices/src/virtio/video/format.rs:47-65 | `to_libvda_profile(p) == Some(x)` iff `from_libvda_profile(x) == Some(p)`. |
| `VideoFormat.LibvdaConversionsFollowTable` | devices/src/virtio/video/format.rs:88-111 | Each row of the conversion table is mapped both ways by the two functions. |
| `VideoFormat.LibvdaTableIsConversion` | devices/src/virtio/video/format.rs:47-65 | A pair is in the conversion table iff `from_libvda_profile` maps its first half to its second, and iff `to_libvda_profile` maps its second half to its first. |
| `VideoFormat.LibvdaListed` | devices/src/virtio/video/format.rs:88-111 | Every libvda profile other than the unlisted ones has its row in the conversion table. |
| `VideoFormat.LibvdaVp8` | devices/src/virtio/video/format.rs:106 | Libvda's single VP8 profile corresponds to VP8 profile 0, both ways. |
| `VideoFormat.FormatCodeRoundTrip` | devices/src/virtio/video/format.rs:122-134 | A format's discriminant decodes back to that format. No other format has that discriminant. |
| `VideoFormat.ConversionsCopyFields` | devices/src/virtio/video/format.rs:136-158 | The conversions of `Crop`, `PlaneFormat` and `FormatRange` copy each named field one to one. Converting there and back is the identity, in both directions. |
| `VideoFormat.LengthAsU32` | devices/src/virtio/video/format.rs:173 | The count is taken modulo 2^32, and is exact when it fits. |
| `VideoFormat.FrameFormatRecords` | devices/src/virtio/video/format.rs:167-181 | A frame format is written as one frame header, with the converted width and height and the number of bitrates, followed by one range per bitrate, in order. |
| `VideoFormat.FormatDescHeader` | devices/src/virtio/video/format.rs:190-200 | The header carries the mask, the format's discriminant, the single-buffer planes layout, a plane alignment of 0 and the number of frame formats. |
| `VideoFormat.FrameFormatsRecordsAppend` | devices/src/virtio/video/format.rs:201 | The records of two concatenated lists of frame formats are the two record sequences concatenated. |
| `VirtioWriter.AcceptedAppend` | devices/src/virtio/video/format.rs:175-179 | Writing `a` then `b` into limited room accepts what writing `a + b` at once accepts. |
| `VirtioWriter.Writer.WriteIter` | devices/src/virtio/video/format.rs:175-179 | The items are written in order until the room runs out. The result is Ok iff all fit, and the written records are exactly the accepted prefix. |
| `VideoFormat.WriteFrameFormat` | devices/src/virtio/video/format.rs:167-181 | Succeeds iff the frame format's records fit. The records written are exactly the prefix of them that fits, and the room shrinks by that many. |
| `VideoFormat.WriteFrameFormats` | devices/src/virtio/video/format.rs:201 | The frame formats are written in order, stopping at the first that does not fit. It succeeds iff all records fit, and exactly the prefix that fits is written. |
| `VideoFormat.WriteFormatDesc` | devices/src/virtio/video/format.rs:190-202 | Succeeds iff the header and all frame formats fit. What is written is exactly the prefix of `FormatDescRecords` that fits. |
| `VideoFormat.RangesRoundTrip` | devices/src/virtio/video/format.rs:175-179 | Reading back as many ranges as were written returns the bitrates and leaves the rest of the chain. |
| `VideoFormat.FrameFormatRoundTrip` | devices/src/virtio/video/format.rs:167-181 | The header's rate count lets a reader recover the whole frame format when the count fits in 32 bits. |
| `VideoFormat.FrameFormatsRoundTrip` | devices/src/virtio/video/format.rs:167-181 | A run of written frame formats reads back whole, in order, when each one's rate count fits in 32 bits. |
| `VideoFormat.FormatDescRoundTrip` | devices/src/virtio/video/format.rs:190-202 | A written format description reads back whole, with mask, format and every frame format, when its counts fit in 32 bits. |

## Left out

- Audio backends: the CRAS and null audio servers are not modelled. Nor are `create_cras_audio_device`, `create_null_audio_device` and `try_new`, which build the bus master over them.
- `set_capture_effects`: it passes the effect list to the existing bus master, whose capture streams are not modelled.
- The guest memory and audio-server parameters of `Ac97Dev::new`. The bus master is created without them.
- `read_config_register`, `write_config_register` and `debug_label`. They only forward to the PCI configuration or report a constant.
- `keep_fds`: it forwards to the bus master's audio-server descriptors, or returns an empty list when there are none. Those descriptors are not modelled.
- The text of the `Display` message for `Ac97Error`.
- The AC97 register logic behind the BARs, which is not part of this model: DMA descriptor rings, CIV/LVI/PICB, interrupt generation, read-only registers, and the mixer's reset values. The mixer is a plain 16-bit register map in which unwritten offsets read 0.
- `Ac97Parts.Ac97BusMaster.Readb`, `Readw` and `Readl`: the value returned is unconstrained, because the bus master's register semantics are not modelled. Only the call and the value it returned are recorded.
- `MIXER_REGS_SIZE` and `MASTER_REGS_SIZE`: modelled as positive constants of unspecified value, because the register-layout file that defines them is not part of this model.
- `Ac97.ClassifyAddress`: addresses are unbounded, so the 64-bit overflow of `bar + SIZE` is not modelled.
- The `error!` logging on unsupported access widths. Only the fact that nothing else happens is modelled.
- `Pci.AddPciBar`: only the check that the BAR index is free is modelled. The PCI library's other checks have no counterpart: size and alignment of the address, and overlap with the configuration registers.
- The system allocator's placement policy. Its answers are a script of replies given to the model, an empty script answers `OutOfSpace`, and the MMIO pool is always the low one.
- The message of the panic when `allocate_io_bars` is called before `assign_address`. The method requires an address instead.
- `VideoFormat.FormatCode`: the protocol's numeric discriminants for formats are stand-ins, pairwise distinct as the real ones are. The same holds for `VIRTIO_VIDEO_PLANES_LAYOUT_SINGLE_BUFFER`, whose value is left unspecified. The protocol constants file is not part of this model.
- The discriminants of `Profile` and `Level`, and the `impl_try_from_le32_for_enumn` parsing from the wire. That macro is defined outside the modelled files.
- The zero padding fields of the virtio structures. Default-initialised padding carries no information.
- `VirtioWriter.Writer`: room is counted in records rather than bytes, and a record that does not fit is not partially written. The byte layout of each record in guest memory is not modelled.
- The encoder interface in `encoder/mod.rs` and `qcow_utils.h`: they are outside the modelled core.
