/** Classification of a stream's colour space into a Y'CbCr encoding and a sample range,
    as each back-end passes them on: the DRM back-end as the enum value names of the
    plane's COLOR_ENCODING / COLOR_RANGE properties, the EGL back-end as the colour-space
    and range hints of the EGL_EXT_image_dma_buf_import extension. */
module ColourSpaces {
  import opened Common

  /** Names looked up in the DRM plane's property enum tables, plus whether the
      "unexpected colour space" line is written to the log. */
  datatype DrmColourNames = DrmColourNames(encoding: string, range: string, logged: bool)

  /** get_colour_space_info of the DRM back-end. Total: an unknown tag, or no tag at all,
      falls back to BT.601 limited range with a log line and never throws. */
  function DrmColourInfo(cs: Option<ColourSpace>): (r: DrmColourNames)
    ensures r.encoding == "709" <==> cs == Some(Rec709)
    ensures r.encoding != "709" ==> r.encoding == "601"
    ensures r.range == "full" <==> cs == Some(Jpeg)
    ensures r.range != "full" ==> r.range == "limited"
    ensures !r.logged <==> cs in {Some(Jpeg), Some(Smpte170m), Some(Rec709)}
  {
    var r0 := DrmColourNames("601", "limited", false);
    if cs == Some(Jpeg) then r0.(range := "full")
    else if cs == Some(Smpte170m) then r0
    else if cs == Some(Rec709) then r0.(encoding := "709")
    else r0.(logged := true)
  }

  /** The two values of EGL_YUV_COLOR_SPACE_HINT_EXT used here. */
  datatype EglEncoding = ItuRec601 | ItuRec709
  /** The two values of EGL_SAMPLE_RANGE_HINT_EXT. */
  datatype EglRange = YuvNarrowRange | YuvFullRange

  datatype EglColourHints = EglColourHints(encoding: EglEncoding, range: EglRange, logged: bool)

  /** get_colour_space_info of the EGL back-end: REC601 / narrow by default, full range
      for Jpeg, REC709 encoding for Rec709; it never throws. */
  function EglColourInfo(cs: Option<ColourSpace>): (r: EglColourHints)
    ensures r.encoding == ItuRec709 <==> cs == Some(Rec709)
    ensures r.range == YuvFullRange <==> cs == Some(Jpeg)
    ensures !r.logged <==> cs in {Some(Jpeg), Some(Smpte170m), Some(Rec709)}
  {
    var r0 := EglColourHints(ItuRec601, YuvNarrowRange, false);
    if cs == Some(Jpeg) then r0.(range := YuvFullRange)
    else if cs == Some(Smpte170m) then r0
    else if cs == Some(Rec709) then r0.(encoding := ItuRec709)
    else r0.(logged := true)
  }

  function EncodingName(e: EglEncoding): string
  {
    match e
    case ItuRec601 => "601"
    case ItuRec709 => "709"
  }

  function RangeName(r: EglRange): string
  {
    match r
    case YuvNarrowRange => "limited"
    case YuvFullRange => "full"
  }

  /** Both back-ends classify every colour space the same way. */
  lemma BackendsAgree(cs: Option<ColourSpace>)
    ensures EncodingName(EglColourInfo(cs).encoding) == DrmColourInfo(cs).encoding
    ensures RangeName(EglColourInfo(cs).range) == DrmColourInfo(cs).range
    ensures EglColourInfo(cs).logged == DrmColourInfo(cs).logged
  {
  }

  /** The table of the three recognised presets and the default for everything else. */
  lemma DrmColourTable(cs: Option<ColourSpace>)
    ensures cs == Some(Jpeg) ==> DrmColourInfo(cs) == DrmColourNames("601", "full", false)
    ensures cs == Some(Smpte170m) ==> DrmColourInfo(cs) == DrmColourNames("601", "limited", false)
    ensures cs == Some(Rec709) ==> DrmColourInfo(cs) == DrmColourNames("709", "limited", false)
    ensures cs !in {Some(Jpeg), Some(Smpte170m), Some(Rec709)} ==>
              DrmColourInfo(cs) == DrmColourNames("601", "limited", true)
  {
  }
}
