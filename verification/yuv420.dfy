/** The in-memory layout of a planar Y'CbCr 4:2:0 buffer (DRM_FORMAT_YUV420) and the two
    descriptions of it the back-ends build: the framebuffer request of drmModeAddFB2 and the
    attribute list of EGL_EXT_image_dma_buf_import. All arithmetic is `uint32_t`. */
module Yuv420 {
  import opened Common
  import opened ColourSpaces

  /** fourcc_code('Y', 'U', '1', '2'). */
  const DrmFormatYuv420: nat := 0x3231_5559

  /** Per-plane byte offsets and row pitches, as the four-entry arrays the DRM back-end
      builds (the fourth entry is zero-filled by the aggregate initialiser). */
  datatype PlaneLayout = PlaneLayout(offsets: seq<nat>, pitches: seq<nat>)

  /** Luma plane at 0 with pitch `stride`; the two chroma planes follow it, each with half
      the pitch and half the rows. */
  function Layout(stride: nat, height: nat): (l: PlaneLayout)
    requires IsU32(stride) && IsU32(height)
    ensures |l.offsets| == 4 && |l.pitches| == 4
    ensures forall p :: 0 <= p < 4 ==> l.offsets[p] < U32 && l.pitches[p] < U32
    ensures l.offsets[0] == 0 && l.offsets[3] == 0 && l.pitches[3] == 0
  {
    var lumaSize := Mul32(stride, height);
    var chromaSize := Mul32(stride / 2, height / 2);
    PlaneLayout([0, lumaSize, Add32(lumaSize, chromaSize), 0], [stride, stride / 2, stride / 2, 0])
  }

  /** When nothing wraps, the three planes are laid out back to back: plane 1 starts where
      the luma plane ends, plane 2 starts where plane 1 ends, and the whole image fits in
      one and a half luma planes. */
  lemma {:induction false} LayoutContiguous(stride: nat, height: nat)
    requires IsU32(stride) && IsU32(height)
    requires stride * height + (stride / 2) * (height / 2) < U32
    ensures var l := Layout(stride, height);
      && l.offsets == [0, stride * height, stride * height + (stride / 2) * (height / 2), 0]
      && l.pitches == [stride, stride / 2, stride / 2, 0]
      && l.offsets[0] <= l.offsets[1] <= l.offsets[2]
      && l.offsets[1] == l.offsets[0] + l.pitches[0] * height
      && l.offsets[2] == l.offsets[1] + l.pitches[1] * (height / 2)
      && l.offsets[2] + l.pitches[2] * (height / 2) <= stride * height + (stride * height) / 2
  {
    var a, b := stride / 2, height / 2;
    MulMono(2 * a, 2 * b, stride, height);
    assert 4 * (a * b) == (2 * a) * (2 * b);
  }

  /** The framebuffer request passed to drmModeAddFB2: every plane refers to the same
      buffer-object handle. */
  datatype AddFb2Request = AddFb2Request(width: nat, height: nat, fourcc: nat,
                                         handles: seq<nat>, pitches: seq<nat>, offsets: seq<nat>)

  function AddFb2(info: StreamInfo, boHandle: nat, fourcc: nat): (req: AddFb2Request)
    requires IsU32(info.stride) && IsU32(info.height)
    ensures |req.handles| == 4 && req.handles[3] == 0
    ensures forall p :: 0 <= p < 3 ==> req.handles[p] == boHandle
    ensures req.offsets == Layout(info.stride, info.height).offsets
    ensures req.pitches == Layout(info.stride, info.height).pitches
  {
    var l := Layout(info.stride, info.height);
    AddFb2Request(info.width, info.height, fourcc, [boHandle, boHandle, boHandle, 0], l.pitches, l.offsets)
  }

  /** What one drmModeAddFB2 call is made from: the request it passes is
      `AddFb2(info, boHandle, fourcc)`. */
  datatype AddFb2Args = AddFb2Args(info: StreamInfo, boHandle: nat, fourcc: nat)

  /** What one eglCreateImageKHR call is made from: the attribute list it passes is
      `ImportAttribs(info, fd, encoding, range)`. */
  datatype ImportArgs = ImportArgs(info: StreamInfo, fd: int, encoding: EglEncoding, range: EglRange)

  /** Attribute names of EGL_EXT_image_dma_buf_import used by both back-ends. */
  datatype AttrKey = Width | Height | LinuxDrmFourcc
                   | PlaneFd(plane: nat) | PlaneOffset(plane: nat) | PlanePitch(plane: nat)
                   | YuvColorSpaceHint | SampleRangeHint

  datatype AttrValue = Int(i: int) | Encoding(e: EglEncoding) | Range(r: EglRange)

  datatype Attr = Attr(key: AttrKey, value: AttrValue)

  /** The attribute list passed to eglCreateImageKHR with EGL_LINUX_DMA_BUF_EXT (without
      its EGL_NONE terminator). Both back-ends write it out with the same expressions;
      they differ only in the two hints. */
  function ImportAttribs(info: StreamInfo, fd: int, encoding: EglEncoding, range: EglRange): (a: seq<Attr>)
    requires IsU32(info.width) && IsU32(info.height) && IsU32(info.stride)
    ensures |a| == 14
    ensures forall i, j :: 0 <= i < j < |a| ==> a[i].key != a[j].key
    ensures forall i :: 0 <= i < |a| && a[i].key.PlaneFd? ==> a[i].key.plane < 3 && a[i].value == Int(fd)
  {
    var stride, height := info.stride, info.height;
    [ Attr(Width, Int(AsEglInt(info.width))),
      Attr(Height, Int(AsEglInt(info.height))),
      Attr(LinuxDrmFourcc, Int(DrmFormatYuv420)),
      Attr(PlaneFd(0), Int(fd)),
      Attr(PlaneOffset(0), Int(0)),
      Attr(PlanePitch(0), Int(AsEglInt(stride))),
      Attr(PlaneFd(1), Int(fd)),
      Attr(PlaneOffset(1), Int(AsEglInt(Mul32(stride, height)))),
      Attr(PlanePitch(1), Int(AsEglInt(stride / 2))),
      Attr(PlaneFd(2), Int(fd)),
      Attr(PlaneOffset(2), Int(AsEglInt(Add32(Mul32(stride, height), Mul32(stride / 2, height / 2))))),
      Attr(PlanePitch(2), Int(AsEglInt(stride / 2))),
      Attr(YuvColorSpaceHint, Encoding(encoding)),
      Attr(SampleRangeHint, Range(range)) ]
  }

  /** The value of the first attribute named `key`, if any. */
  function Lookup(attrs: seq<Attr>, key: AttrKey): Option<AttrValue>
  {
    if attrs == [] then None
    else if attrs[0].key == key then Some(attrs[0].value)
    else Lookup(attrs[1..], key)
  }

  /** The imported image has the stream's width and height, the 4:2:0 fourcc, and the two
      colour hints it was given. */
  lemma ImportHeader(info: StreamInfo, fd: int, encoding: EglEncoding, range: EglRange)
    requires IsU32(info.width) && IsU32(info.height) && IsU32(info.stride)
    ensures var attrs := ImportAttribs(info, fd, encoding, range);
      && Lookup(attrs, Width) == Some(Int(AsEglInt(info.width)))
      && Lookup(attrs, Height) == Some(Int(AsEglInt(info.height)))
      && Lookup(attrs, LinuxDrmFourcc) == Some(Int(DrmFormatYuv420))
      && Lookup(attrs, YuvColorSpaceHint) == Some(Encoding(encoding))
      && Lookup(attrs, SampleRangeHint) == Some(Range(range))
  {
    var attrs := ImportAttribs(info, fd, encoding, range);
    LookupAt(attrs, 0, Width);
    LookupAt(attrs, 1, Height);
    LookupAt(attrs, 2, LinuxDrmFourcc);
    LookupAt(attrs, 12, YuvColorSpaceHint);
    LookupAt(attrs, 13, SampleRangeHint);
  }

  /** Every one of the three planes of the imported image reads the same dma-buf fd, at the
      offset and with the pitch of the 4:2:0 layout that the DRM framebuffer uses too. */
  lemma ImportMatchesLayout(info: StreamInfo, fd: int, encoding: EglEncoding, range: EglRange, p: nat)
    requires IsU32(info.width) && IsU32(info.height) && IsU32(info.stride)
    requires p < 3
    ensures var attrs := ImportAttribs(info, fd, encoding, range);
            var l := Layout(info.stride, info.height);
      && Lookup(attrs, PlaneFd(p)) == Some(Int(fd))
      && Lookup(attrs, PlaneOffset(p)) == Some(Int(AsEglInt(l.offsets[p])))
      && Lookup(attrs, PlanePitch(p)) == Some(Int(AsEglInt(l.pitches[p])))
  {
    var attrs := ImportAttribs(info, fd, encoding, range);
    var k := 3 + 3 * p;
    LookupAt(attrs, k, PlaneFd(p));
    LookupAt(attrs, k + 1, PlaneOffset(p));
    LookupAt(attrs, k + 2, PlanePitch(p));
  }

  /** The first attribute carrying `key` decides the lookup. */
  lemma {:induction false} LookupAt(attrs: seq<Attr>, i: nat, key: AttrKey)
    requires i < |attrs| && attrs[i].key == key
    requires forall j :: 0 <= j < i ==> attrs[j].key != key
    ensures Lookup(attrs, key) == Some(attrs[i].value)
  {
    if i > 0 {
      LookupAt(attrs[1..], i - 1, key);
    }
  }

  /** For the same stream, the drmModeAddFB2 request and the EGL import attributes describe
      the same three planes. */
  lemma FramebufferMatchesImport(info: StreamInfo, boHandle: nat, fd: int, encoding: EglEncoding,
                                 range: EglRange, p: nat)
    requires IsU32(info.width) && IsU32(info.height) && IsU32(info.stride)
    requires p < 3
    ensures var req := AddFb2(info, boHandle, DrmFormatYuv420);
            var attrs := ImportAttribs(info, fd, encoding, range);
      && Lookup(attrs, PlaneOffset(p)) == Some(Int(AsEglInt(req.offsets[p])))
      && Lookup(attrs, PlanePitch(p)) == Some(Int(AsEglInt(req.pitches[p])))
      && Lookup(attrs, LinuxDrmFourcc) == Some(Int(req.fourcc))
  {
    ImportMatchesLayout(info, fd, encoding, range, p);
    ImportHeader(info, fd, encoding, range);
  }
}
