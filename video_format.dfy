/**
 * The codec profiles of the libvda client library, as far as the virtio video
 * device maps them. Profiles the device has no counterpart for are represented by
 * `Unlisted`.
 */
module Libvda {
  datatype Profile =
    | H264ProfileBaseline
    | H264ProfileMain
    | H264ProfileExtended
    | H264ProfileHigh
    | H264ProfileHigh10Profile
    | H264ProfileHigh422Profile
    | H264ProfileHigh444PredictiveProfile
    | H264ProfileScalableBaseline
    | H264ProfileScalableHigh
    | H264ProfileStereoHigh
    | H264ProfileMultiviewHigh
    | HevcProfileMain
    | HevcProfileMain10
    | HevcProfileMainStillPicture
    | VP8
    | VP9Profile0
    | VP9Profile1
    | VP9Profile2
    | VP9Profile3
    | Unlisted(id: nat)
}

/**
 * The format vocabulary of the virtio video device: codec profiles and formats,
 * their mapping to libvda profiles, the plain structures exchanged with the
 * guest, and the two format responses written into a descriptor chain.
 */
module VideoFormat {
  import opened Wrappers
  import opened VirtioWriter
  import Libvda

  /** A `u32` / `Le32` value. */
  newtype u32 = x: int | 0 <= x < 0x1_0000_0000

  /** A `u64` / `Le64` value. */
  newtype u64 = x: int | 0 <= x < 0x1_0000_0000_0000_0000

  datatype Profile =
    | H264Baseline
    | H264Main
    | H264Extended
    | H264High
    | H264High10
    | H264High422
    | H264High444PredictiveProfile
    | H264ScalableBaseline
    | H264ScalableHigh
    | H264StereoHigh
    | H264MultiviewHigh
    | HevcMain
    | HevcMain10
    | HevcMainStillPicture
    | VP8Profile0
    | VP8Profile1
    | VP8Profile2
    | VP8Profile3
    | VP9Profile0
    | VP9Profile1
    | VP9Profile2
    | VP9Profile3

  datatype Level = H264Level1_0

  datatype Format =
    // Raw formats
    | NV12
    | YUV420
    // Bitstream formats
    | H264
    | HEVC
    | VP8
    | VP9

  predicate IsRawFormat(f: Format)
  {
    f == NV12 || f == YUV420
  }

  // ---------------------------------------------------------------------------
  // Profile to format

  /** `Profile::to_format`: the bitstream format a profile belongs to. */
  function ToFormat(p: Profile): (f: Format)
    ensures !IsRawFormat(f)
  {
    match p
    case H264Baseline | H264Main | H264Extended | H264High | H264High10 | H264High422
       | H264High444PredictiveProfile | H264ScalableBaseline | H264ScalableHigh
       | H264StereoHigh | H264MultiviewHigh => H264
    case HevcMain | HevcMain10 | HevcMainStillPicture => HEVC
    case VP8Profile0 | VP8Profile1 | VP8Profile2 | VP8Profile3 => VP8
    case VP9Profile0 | VP9Profile1 | VP9Profile2 | VP9Profile3 => VP9
  }

  const H264Profiles: set<Profile> :=
    {H264Baseline, H264Main, H264Extended, H264High, H264High10, H264High422,
     H264High444PredictiveProfile, H264ScalableBaseline, H264ScalableHigh,
     H264StereoHigh, H264MultiviewHigh}
  const HevcProfiles: set<Profile> := {HevcMain, HevcMain10, HevcMainStillPicture}
  const Vp8Profiles: set<Profile> := {VP8Profile0, VP8Profile1, VP8Profile2, VP8Profile3}
  const Vp9Profiles: set<Profile> := {VP9Profile0, VP9Profile1, VP9Profile2, VP9Profile3}

  /** Each bitstream format is reached from exactly its own family of profiles. */
  lemma ToFormatFamilies(p: Profile)
    ensures ToFormat(p) == H264 <==> p in H264Profiles
    ensures ToFormat(p) == HEVC <==> p in HevcProfiles
    ensures ToFormat(p) == VP8 <==> p in Vp8Profiles
    ensures ToFormat(p) == VP9 <==> p in Vp9Profiles
  {
  }

  lemma ProfileFamilySizes()
    ensures |H264Profiles| == 11 && |HevcProfiles| == 3 && |Vp8Profiles| == 4 && |Vp9Profiles| == 4
  {
  }

  // ---------------------------------------------------------------------------
  // The libvda conversion
  //
  // Both directions are generated from one table of (libvda profile, profile)
  // pairs; each function below is that table written as a `match`.

  /** `from_libvda_profile`: the profile a listed libvda profile pairs with. */
  function FromLibvdaProfile(x: Libvda.Profile): (r: Option<Profile>)
    ensures r.None? <==> x.Unlisted?
  {
    match x
    case H264ProfileBaseline => Some(H264Baseline)
    case H264ProfileMain => Some(H264Main)
    case H264ProfileExtended => Some(H264Extended)
    case H264ProfileHigh => Some(H264High)
    case H264ProfileHigh10Profile => Some(H264High10)
    case H264ProfileHigh422Profile => Some(H264High422)
    case H264ProfileHigh444PredictiveProfile => Some(H264High444PredictiveProfile)
    case H264ProfileScalableBaseline => Some(H264ScalableBaseline)
    case H264ProfileScalableHigh => Some(H264ScalableHigh)
    case H264ProfileStereoHigh => Some(H264StereoHigh)
    case H264ProfileMultiviewHigh => Some(H264MultiviewHigh)
    case HevcProfileMain => Some(HevcMain)
    case HevcProfileMain10 => Some(HevcMain10)
    case HevcProfileMainStillPicture => Some(HevcMainStillPicture)
    case VP8 => Some(VP8Profile0)
    case VP9Profile0 => Some(VP9Profile0)
    case VP9Profile1 => Some(VP9Profile1)
    case VP9Profile2 => Some(VP9Profile2)
    case VP9Profile3 => Some(VP9Profile3)
    case _ => None
  }

  /** `to_libvda_profile`: the libvda profile a profile pairs with, if the table lists it. */
  function ToLibvdaProfile(p: Profile): (r: Option<Libvda.Profile>)
    ensures r.None? <==> p in {VP8Profile1, VP8Profile2, VP8Profile3}
    ensures r.Some? ==> FromLibvdaProfile(r.value) == Some(p)
  {
    match p
    case H264Baseline => Some(Libvda.H264ProfileBaseline)
    case H264Main => Some(Libvda.H264ProfileMain)
    case H264Extended => Some(Libvda.H264ProfileExtended)
    case H264High => Some(Libvda.H264ProfileHigh)
    case H264High10 => Some(Libvda.H264ProfileHigh10Profile)
    case H264High422 => Some(Libvda.H264ProfileHigh422Profile)
    case H264High444PredictiveProfile => Some(Libvda.H264ProfileHigh444PredictiveProfile)
    case H264ScalableBaseline => Some(Libvda.H264ProfileScalableBaseline)
    case H264ScalableHigh => Some(Libvda.H264ProfileScalableHigh)
    case H264StereoHigh => Some(Libvda.H264ProfileStereoHigh)
    case H264MultiviewHigh => Some(Libvda.H264ProfileMultiviewHigh)
    case HevcMain => Some(Libvda.HevcProfileMain)
    case HevcMain10 => Some(Libvda.HevcProfileMain10)
    case HevcMainStillPicture => Some(Libvda.HevcProfileMainStillPicture)
    case VP8Profile0 => Some(Libvda.VP8)
    case VP9Profile0 => Some(Libvda.VP9Profile0)
    case VP9Profile1 => Some(Libvda.VP9Profile1)
    case VP9Profile2 => Some(Libvda.VP9Profile2)
    case VP9Profile3 => Some(Libvda.VP9Profile3)
    case _ => None
  }

  /** The table both conversions are generated from. */
  const LibvdaTable: seq<(Libvda.Profile, Profile)> := [
    (Libvda.H264ProfileBaseline, H264Baseline),
    (Libvda.H264ProfileMain, H264Main),
    (Libvda.H264ProfileExtended, H264Extended),
    (Libvda.H264ProfileHigh, H264High),
    (Libvda.H264ProfileHigh10Profile, H264High10),
    (Libvda.H264ProfileHigh422Profile, H264High422),
    (Libvda.H264ProfileHigh444PredictiveProfile, H264High444PredictiveProfile),
    (Libvda.H264ProfileScalableBaseline, H264ScalableBaseline),
    (Libvda.H264ProfileScalableHigh, H264ScalableHigh),
    (Libvda.H264ProfileStereoHigh, H264StereoHigh),
    (Libvda.H264ProfileMultiviewHigh, H264MultiviewHigh),
    (Libvda.HevcProfileMain, HevcMain),
    (Libvda.HevcProfileMain10, HevcMain10),
    (Libvda.HevcProfileMainStillPicture, HevcMainStillPicture),
    (Libvda.VP8, VP8Profile0),
    (Libvda.VP9Profile0, VP9Profile0),
    (Libvda.VP9Profile1, VP9Profile1),
    (Libvda.VP9Profile2, VP9Profile2),
    (Libvda.VP9Profile3, VP9Profile3)
  ]

  /** The two conversions are mutual inverses. */
  lemma LibvdaConversionsInverse(p: Profile, x: Libvda.Profile)
    ensures ToLibvdaProfile(p) == Some(x) <==> FromLibvdaProfile(x) == Some(p)
  {
    match p
    case VP8Profile1 | VP8Profile2 | VP8Profile3 =>
    case _ =>
  }

  /** Each conversion pairs exactly the rows of the table. */
  lemma LibvdaConversionsFollowTable(k: nat)
    requires k < |LibvdaTable|
    ensures FromLibvdaProfile(LibvdaTable[k].0) == Some(LibvdaTable[k].1)
    ensures ToLibvdaProfile(LibvdaTable[k].1) == Some(LibvdaTable[k].0)
  {
  }

  /** The table and the two conversions are the same relation. */
  lemma LibvdaTableIsConversion(x: Libvda.Profile, p: Profile)
    ensures FromLibvdaProfile(x) == Some(p) <==> (x, p) in LibvdaTable
    ensures ToLibvdaProfile(p) == Some(x) <==> (x, p) in LibvdaTable
  {
    LibvdaConversionsInverse(p, x);
    if (x, p) in LibvdaTable {
      var k :| 0 <= k < |LibvdaTable| && LibvdaTable[k] == (x, p);
      LibvdaConversionsFollowTable(k);
    }
    if FromLibvdaProfile(x) == Some(p) {
      LibvdaListed(x);
    }
  }

  /** Every profile libvda lists has its row in the table. */
  lemma LibvdaListed(x: Libvda.Profile)
    requires !x.Unlisted?
    ensures (x, FromLibvdaProfile(x).value) in LibvdaTable
  {
    var k: nat := match x
      case H264ProfileBaseline => 0
      case H264ProfileMain => 1
      case H264ProfileExtended => 2
      case H264ProfileHigh => 3
      case H264ProfileHigh10Profile => 4
      case H264ProfileHigh422Profile => 5
      case H264ProfileHigh444PredictiveProfile => 6
      case H264ProfileScalableBaseline => 7
      case H264ProfileScalableHigh => 8
      case H264ProfileStereoHigh => 9
      case H264ProfileMultiviewHigh => 10
      case HevcProfileMain => 11
      case HevcProfileMain10 => 12
      case HevcProfileMainStillPicture => 13
      case VP8 => 14
      case VP9Profile0 => 15
      case VP9Profile1 => 16
      case VP9Profile2 => 17
      case VP9Profile3 => 18;
    assert LibvdaTable[k] == (x, FromLibvdaProfile(x).value);
  }

  /** Libvda's single VP8 profile is VP8Profile0, both ways. */
  lemma LibvdaVp8()
    ensures FromLibvdaProfile(Libvda.VP8) == Some(VP8Profile0)
    ensures ToLibvdaProfile(VP8Profile0) == Some(Libvda.VP8)
  {
  }

  // ---------------------------------------------------------------------------
  // Discriminants

  /**
   * `format as u32`. The protocol's numbers are not part of this model; these are
   * stand-ins that, like the real ones, are pairwise distinct.
   */
  function FormatCode(f: Format): u32
  {
    match f
    case NV12 => 0
    case YUV420 => 1
    case H264 => 2
    case HEVC => 3
    case VP8 => 4
    case VP9 => 5
  }

  /** The format with a given discriminant, if any (the derived `Format::n`). */
  function FormatFromCode(n: u32): Option<Format>
  {
    if n == 0 then Some(NV12)
    else if n == 1 then Some(YUV420)
    else if n == 2 then Some(H264)
    else if n == 3 then Some(HEVC)
    else if n == 4 then Some(VP8)
    else if n == 5 then Some(VP9)
    else None
  }

  lemma FormatCodeRoundTrip(f: Format, n: u32)
    ensures FormatFromCode(FormatCode(f)) == Some(f)
    ensures FormatFromCode(n) == Some(f) ==> FormatCode(f) == n
  {
  }

  /** The single-buffer planes layout; its protocol number is not part of this model. */
  const VIRTIO_VIDEO_PLANES_LAYOUT_SINGLE_BUFFER: u32

  // ---------------------------------------------------------------------------
  // Plain structures and their virtio counterparts

  datatype Crop = Crop(left: u32, top: u32, width: u32, height: u32)
  datatype VirtioVideoCrop = VirtioVideoCrop(left: u32, top: u32, width: u32, height: u32)

  datatype PlaneFormat = PlaneFormat(planeSize: u32, stride: u32)
  datatype VirtioVideoPlaneFormat = VirtioVideoPlaneFormat(planeSize: u32, stride: u32)

  datatype FormatRange = FormatRange(min: u32, max: u32, step: u32)
  datatype VirtioVideoFormatRange = VirtioVideoFormatRange(min: u32, max: u32, step: u32)

  function CropToVirtio(c: Crop): VirtioVideoCrop
  {
    VirtioVideoCrop(c.left, c.top, c.width, c.height)
  }

  function CropFromVirtio(v: VirtioVideoCrop): Crop
  {
    Crop(v.left, v.top, v.width, v.height)
  }

  function PlaneFormatToVirtio(p: PlaneFormat): VirtioVideoPlaneFormat
  {
    VirtioVideoPlaneFormat(p.planeSize, p.stride)
  }

  function PlaneFormatFromVirtio(v: VirtioVideoPlaneFormat): PlaneFormat
  {
    PlaneFormat(v.planeSize, v.stride)
  }

  function FormatRangeToVirtio(r: FormatRange): VirtioVideoFormatRange
  {
    VirtioVideoFormatRange(r.min, r.max, r.step)
  }

  function FormatRangeFromVirtio(v: VirtioVideoFormatRange): FormatRange
  {
    FormatRange(v.min, v.max, v.step)
  }

  /** Each conversion copies the named fields one-to-one, so each pair is a bijection. */
  lemma ConversionsCopyFields(c: Crop, vc: VirtioVideoCrop, p: PlaneFormat, vp: VirtioVideoPlaneFormat,
                              r: FormatRange, vr: VirtioVideoFormatRange)
    ensures var v := CropToVirtio(c); v.left == c.left && v.top == c.top && v.width == c.width && v.height == c.height
    ensures CropFromVirtio(CropToVirtio(c)) == c && CropToVirtio(CropFromVirtio(vc)) == vc
    ensures var v := PlaneFormatToVirtio(p); v.planeSize == p.planeSize && v.stride == p.stride
    ensures PlaneFormatFromVirtio(PlaneFormatToVirtio(p)) == p && PlaneFormatToVirtio(PlaneFormatFromVirtio(vp)) == vp
    ensures var v := FormatRangeToVirtio(r); v.min == r.min && v.max == r.max && v.step == r.step
    ensures FormatRangeFromVirtio(FormatRangeToVirtio(r)) == r && FormatRangeToVirtio(FormatRangeFromVirtio(vr)) == vr
  {
  }

  // ---------------------------------------------------------------------------
  // The format responses

  datatype FrameFormat = FrameFormat(width: FormatRange, height: FormatRange, bitrates: seq<FormatRange>)

  datatype FormatDesc = FormatDesc(mask: u64, format: Format, frameFormats: seq<FrameFormat>)

  datatype VirtioVideoFormatFrame = VirtioVideoFormatFrame(
    width: VirtioVideoFormatRange, height: VirtioVideoFormatRange, numRates: u32)

  datatype VirtioVideoFormatDesc = VirtioVideoFormatDesc(
    mask: u64, format: u32, planesLayout: u32, planeAlign: u32, numFrames: u32)

  /** One object written into the descriptor chain. */
  datatype Record =
    | FrameRecord(frame: VirtioVideoFormatFrame)
    | RangeRecord(range: VirtioVideoFormatRange)
    | DescRecord(desc: VirtioVideoFormatDesc)

  const U32_LIMIT: nat := 0x1_0000_0000

  /** `n as u32`: the count modulo 2^32. */
  function LengthAsU32(n: nat): (v: u32)
    ensures n < U32_LIMIT ==> v as nat == n
    ensures v as nat == n % U32_LIMIT
  {
    (n % U32_LIMIT) as u32
  }

  /** The range records for `rs`, in order. */
  function RangeRecords(rs: seq<FormatRange>): (out: seq<Record>)
    ensures |out| == |rs|
    ensures forall i :: 0 <= i < |rs| ==> out[i] == RangeRecord(FormatRangeToVirtio(rs[i]))
  {
    seq(|rs|, i requires 0 <= i < |rs| => RangeRecord(FormatRangeToVirtio(rs[i])))
  }

  /** The records `FrameFormat::write` emits when every write succeeds. */
  function FrameFormatRecords(ff: FrameFormat): (out: seq<Record>)
    ensures |out| == 1 + |ff.bitrates| && out[0].FrameRecord?
    ensures out[0].frame.width == FormatRangeToVirtio(ff.width)
    ensures out[0].frame.height == FormatRangeToVirtio(ff.height)
    ensures |ff.bitrates| < U32_LIMIT ==> out[0].frame.numRates as nat == |out| - 1
    ensures out[1..] == RangeRecords(ff.bitrates)
  {
    [FrameRecord(VirtioVideoFormatFrame(FormatRangeToVirtio(ff.width), FormatRangeToVirtio(ff.height),
                                        LengthAsU32(|ff.bitrates|)))]
      + RangeRecords(ff.bitrates)
  }

  /** The records of a sequence of frame formats, one after the other. */
  function FrameFormatsRecords(fs: seq<FrameFormat>): seq<Record>
  {
    if fs == [] then [] else FrameFormatRecords(fs[0]) + FrameFormatsRecords(fs[1..])
  }

  lemma {:induction false} FrameFormatsRecordsAppend(a: seq<FrameFormat>, b: seq<FrameFormat>)
    ensures FrameFormatsRecords(a + b) == FrameFormatsRecords(a) + FrameFormatsRecords(b)
  {
    if a == [] {
      assert a + b == b;
    } else {
      assert (a + b)[1..] == a[1..] + b;
      FrameFormatsRecordsAppend(a[1..], b);
    }
  }

  /** The header `FormatDesc::write` emits. */
  function FormatDescHeader(fd: FormatDesc): (h: VirtioVideoFormatDesc)
    ensures h.mask == fd.mask && FormatFromCode(h.format) == Some(fd.format)
    ensures h.planesLayout == VIRTIO_VIDEO_PLANES_LAYOUT_SINGLE_BUFFER && h.planeAlign == 0
    ensures |fd.frameFormats| < U32_LIMIT ==> h.numFrames as nat == |fd.frameFormats|
  {
    VirtioVideoFormatDesc(fd.mask, FormatCode(fd.format), VIRTIO_VIDEO_PLANES_LAYOUT_SINGLE_BUFFER, 0,
                          LengthAsU32(|fd.frameFormats|))
  }

  /** The records `FormatDesc::write` emits when every write succeeds. */
  function FormatDescRecords(fd: FormatDesc): seq<Record>
  {
    [DescRecord(FormatDescHeader(fd))] + FrameFormatsRecords(fd.frameFormats)
  }

  /** `FrameFormat::write`: the header, then the bitrates; a failed write ends the response. */
  method WriteFrameFormat(ff: FrameFormat, w: Writer<Record>) returns (r: Result<(), IoError>)
    modifies w
    ensures r.Ok? <==> |FrameFormatRecords(ff)| <= old(w.room)
    ensures w.written == old(w.written) + Accepted(FrameFormatRecords(ff), old(w.room))
    ensures w.room == old(w.room) - |Accepted(FrameFormatRecords(ff), old(w.room))|
  {
    var records := FrameFormatRecords(ff);
    var rest := RangeRecords(ff.bitrates);
    assert records == [records[0]] + rest;
    ghost var room0, written0 := w.room, w.written;
    AcceptedAppend([records[0]], rest, room0);
    r := w.WriteObj(records[0]);
    if r.Err? {
      assert Accepted(records, room0) == [];
      return;
    }
    ghost var written1 := w.written;
    assert written1 == written0 + [records[0]] && w.room == room0 - 1;
    r := w.WriteIter(rest);
    ConcatAssoc(written0, [records[0]], Accepted(rest, room0 - 1));
  }

  /** The records of the first `i + 1` frame formats extend those of the first `i`. */
  lemma FrameFormatsRecordsStep(fs: seq<FrameFormat>, i: nat)
    requires i < |fs|
    ensures FrameFormatsRecords(fs[..i + 1]) == FrameFormatsRecords(fs[..i]) + FrameFormatRecords(fs[i])
  {
    assert fs[..i + 1] == fs[..i] + [fs[i]];
    FrameFormatsRecordsAppend(fs[..i], [fs[i]]);
    assert [fs[i]][1..] == [];
  }

  /** The records of all frame formats, split around the `i`-th one. */
  lemma FrameFormatsRecordsSplit(fs: seq<FrameFormat>, i: nat)
    requires i < |fs|
    ensures FrameFormatsRecords(fs) ==
              FrameFormatsRecords(fs[..i]) + (FrameFormatRecords(fs[i]) + FrameFormatsRecords(fs[i + 1..]))
  {
    var tail := fs[i..];
    assert fs == fs[..i] + tail;
    FrameFormatsRecordsAppend(fs[..i], tail);
    assert tail[0] == fs[i] && tail[1..] == fs[i + 1..];
  }

  /** Associativity of sequence concatenation, stated for the solver's benefit in the writers' proofs. */
  lemma ConcatAssoc<T>(a: seq<T>, b: seq<T>, c: seq<T>)
    ensures (a + b) + c == a + (b + c)
  {
  }

  /** A write that overflows after `a` fits accepts `a` and the part of `b` that fits. */
  lemma AcceptedOverflow<T>(a: seq<T>, b: seq<T>, c: seq<T>, room: nat)
    requires |a| <= room < |a| + |b|
    ensures Accepted(a + (b + c), room) == a + Accepted(b, room - |a|)
    ensures |a + (b + c)| > room
  {
    AcceptedAppend(a, b + c, room);
    AcceptedAppend(b, c, room - |a|);
  }

  /**
   * When the first `i` frame formats fit but frame format `i` does not, the
   * sequence is accepted up to the part of frame format `i` that fits.
   */
  lemma FrameFormatsOverflowAt(fs: seq<FrameFormat>, i: nat, room: nat)
    requires i < |fs|
    requires |FrameFormatsRecords(fs[..i])| <= room < |FrameFormatsRecords(fs[..i])| + |FrameFormatRecords(fs[i])|
    ensures |FrameFormatsRecords(fs)| > room
    ensures Accepted(FrameFormatsRecords(fs), room) ==
              FrameFormatsRecords(fs[..i]) + Accepted(FrameFormatRecords(fs[i]), room - |FrameFormatsRecords(fs[..i])|)
  {
    FrameFormatsRecordsSplit(fs, i);
    AcceptedOverflow(FrameFormatsRecords(fs[..i]), FrameFormatRecords(fs[i]), FrameFormatsRecords(fs[i + 1..]), room);
  }

  /** The frame-format part of `FormatDesc::write`: each frame format in order, stopping at the first error. */
  method WriteFrameFormats(fs: seq<FrameFormat>, w: Writer<Record>) returns (r: Result<(), IoError>)
    modifies w
    ensures r.Ok? <==> |FrameFormatsRecords(fs)| <= old(w.room)
    ensures w.written == old(w.written) + Accepted(FrameFormatsRecords(fs), old(w.room))
    ensures w.room == old(w.room) - |Accepted(FrameFormatsRecords(fs), old(w.room))|
  {
    var i := 0;
    while i < |fs|
      invariant i <= |fs|
      invariant |FrameFormatsRecords(fs[..i])| <= old(w.room)
      invariant w.written == old(w.written) + FrameFormatsRecords(fs[..i])
      invariant w.room == old(w.room) - |FrameFormatsRecords(fs[..i])|
    {
      FrameFormatsRecordsStep(fs, i);
      ghost var done := FrameFormatsRecords(fs[..i]);
      r := WriteFrameFormat(fs[i], w);
      if r.Err? {
        FrameFormatsOverflowAt(fs, i, old(w.room));
        ConcatAssoc(old(w.written), done, Accepted(FrameFormatRecords(fs[i]), old(w.room) - |done|));
        return;
      }
      ConcatAssoc(old(w.written), done, FrameFormatRecords(fs[i]));
      i := i + 1;
    }
    assert fs[..i] == fs;
    r := Ok(());
  }

  /** `FormatDesc::write`: the header, then each frame format in order, stopping at the first error. */
  method WriteFormatDesc(fd: FormatDesc, w: Writer<Record>) returns (r: Result<(), IoError>)
    modifies w
    ensures r.Ok? <==> |FormatDescRecords(fd)| <= old(w.room)
    ensures w.written == old(w.written) + Accepted(FormatDescRecords(fd), old(w.room))
    ensures w.room == old(w.room) - |Accepted(FormatDescRecords(fd), old(w.room))|
  {
    var header := DescRecord(FormatDescHeader(fd));
    AcceptedAppend([header], FrameFormatsRecords(fd.frameFormats), w.room);
    r := w.WriteObj(header);
    if r.Err? {
      return;
    }
    r := WriteFrameFormats(fd.frameFormats, w);
    ConcatAssoc(old(w.written), [header], Accepted(FrameFormatsRecords(fd.frameFormats), old(w.room) - 1));
  }

  // ---------------------------------------------------------------------------
  // Reading the responses back

  /** Reads `n` range records off the front of `rs`. */
  function ParseRanges(rs: seq<Record>, n: nat): Option<(seq<FormatRange>, seq<Record>)>
  {
    if n == 0 then Some(([], rs))
    else if rs == [] || !rs[0].RangeRecord? then None
    else match ParseRanges(rs[1..], n - 1)
      case None => None
      case Some((xs, rest)) => Some(([FormatRangeFromVirtio(rs[0].range)] + xs, rest))
  }

  /** Reads one frame format: a frame header and as many ranges as it counts. */
  function ParseFrameFormat(rs: seq<Record>): Option<(FrameFormat, seq<Record>)>
  {
    if rs == [] || !rs[0].FrameRecord? then None
    else
      var h := rs[0].frame;
      match ParseRanges(rs[1..], h.numRates as nat)
      case None => None
      case Some((bitrates, rest)) =>
        Some((FrameFormat(FormatRangeFromVirtio(h.width), FormatRangeFromVirtio(h.height), bitrates), rest))
  }

  function ParseFrameFormats(rs: seq<Record>, n: nat): Option<(seq<FrameFormat>, seq<Record>)>
    decreases n
  {
    if n == 0 then Some(([], rs))
    else match ParseFrameFormat(rs)
      case None => None
      case Some((ff, rest)) =>
        match ParseFrameFormats(rest, n - 1)
        case None => None
        case Some((fs, rest')) => Some(([ff] + fs, rest'))
  }

  /** Reads one format description: a header and as many frame formats as it counts. */
  function ParseFormatDesc(rs: seq<Record>): Option<(FormatDesc, seq<Record>)>
  {
    if rs == [] || !rs[0].DescRecord? then None
    else
      var h := rs[0].desc;
      match FormatFromCode(h.format)
      case None => None
      case Some(format) =>
        match ParseFrameFormats(rs[1..], h.numFrames as nat)
        case None => None
        case Some((fs, rest)) => Some((FormatDesc(h.mask, format, fs), rest))
  }

  lemma {:induction false} RangesRoundTrip(bitrates: seq<FormatRange>, rest: seq<Record>)
    ensures ParseRanges(RangeRecords(bitrates) + rest, |bitrates|) == Some((bitrates, rest))
    decreases |bitrates|
  {
    if bitrates != [] {
      var rs := RangeRecords(bitrates) + rest;
      assert rs[0] == RangeRecord(FormatRangeToVirtio(bitrates[0]));
      assert rs[1..] == RangeRecords(bitrates[1..]) + rest;
      RangesRoundTrip(bitrates[1..], rest);
      assert FormatRangeFromVirtio(rs[0].range) == bitrates[0];
      assert [bitrates[0]] + bitrates[1..] == bitrates;
    } else {
      assert RangeRecords(bitrates) + rest == rest;
    }
  }

  /** Every count in a frame format fits the wire's 32 bits. */
  predicate FrameFormatFits(ff: FrameFormat)
  {
    |ff.bitrates| < U32_LIMIT
  }

  /** The header's rate count says exactly how many ranges follow: the frame format reads back whole. */
  lemma FrameFormatRoundTrip(ff: FrameFormat, rest: seq<Record>)
    requires FrameFormatFits(ff)
    ensures ParseFrameFormat(FrameFormatRecords(ff) + rest) == Some((ff, rest))
  {
    var rs := FrameFormatRecords(ff) + rest;
    assert rs[1..] == RangeRecords(ff.bitrates) + rest;
    RangesRoundTrip(ff.bitrates, rest);
    ConversionsCopyFields(Crop(0, 0, 0, 0), VirtioVideoCrop(0, 0, 0, 0), PlaneFormat(0, 0),
                          VirtioVideoPlaneFormat(0, 0), ff.width, FormatRangeToVirtio(ff.width));
    ConversionsCopyFields(Crop(0, 0, 0, 0), VirtioVideoCrop(0, 0, 0, 0), PlaneFormat(0, 0),
                          VirtioVideoPlaneFormat(0, 0), ff.height, FormatRangeToVirtio(ff.height));
  }

  lemma {:induction false} FrameFormatsRoundTrip(fs: seq<FrameFormat>, rest: seq<Record>)
    requires forall i :: 0 <= i < |fs| ==> FrameFormatFits(fs[i])
    ensures ParseFrameFormats(FrameFormatsRecords(fs) + rest, |fs|) == Some((fs, rest))
    decreases |fs|
  {
    if fs != [] {
      var tail := FrameFormatsRecords(fs[1..]) + rest;
      assert FrameFormatsRecords(fs) + rest == FrameFormatRecords(fs[0]) + tail;
      FrameFormatRoundTrip(fs[0], tail);
      assert ParseFrameFormat(FrameFormatsRecords(fs) + rest) == Some((fs[0], tail));
      FrameFormatsRoundTrip(fs[1..], rest);
      assert ParseFrameFormats(tail, |fs| - 1) == Some((fs[1..], rest));
      assert [fs[0]] + fs[1..] == fs;
    } else {
      assert FrameFormatsRecords(fs) + rest == rest;
    }
  }

  /**
   * A format description reads back whole: its header's frame count says exactly
   * how many frame formats follow, and its format field names its format.
   */
  lemma FormatDescRoundTrip(fd: FormatDesc, rest: seq<Record>)
    requires |fd.frameFormats| < U32_LIMIT
    requires forall i :: 0 <= i < |fd.frameFormats| ==> FrameFormatFits(fd.frameFormats[i])
    ensures ParseFormatDesc(FormatDescRecords(fd) + rest) == Some((fd, rest))
  {
    var rs := FormatDescRecords(fd) + rest;
    assert rs[1..] == FrameFormatsRecords(fd.frameFormats) + rest;
    FrameFormatsRoundTrip(fd.frameFormats, rest);
  }
}
