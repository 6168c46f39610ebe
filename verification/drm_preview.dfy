/** The DRM/KMS preview back-end (DrmPreview): construction resolves a connector, a CRTC and
    an overlay plane; Show imports each dma-buf fd once into a cache, puts it on the plane
    letterboxed, and hands the previously shown fd back to the producer; Reset drops the
    cache. Kernel, GBM, EGL and GL calls are parameters saying whether they succeed and what
    they return; their side effects are recorded in ghost logs. */
module DrmPreviewModel {
  import opened Common
  import opened ColourSpaces
  import opened Yuv420
  import opened Geometry
  import opened Reclaim
  import opened DrmSearch

  /** The preview options the back-end reads (`preview_x` ... and `fullscreen`). */
  datatype Options = Options(x: nat, y: nat, width: nat, height: nat, fullscreen: bool)

  /** Every `std::runtime_error` the back-end throws, by the call that failed. */
  datatype DrmError =
    | OpenFailed | NotMaster
    | GetResourcesFailed | NoCrtcs | NoSuitableConnector | CrtcNotFound
    | GetConnectorFailed | NoMode
    | GbmSurfaceFailed | EglInitializeFailed | NoConfigs | ChooseConfigFailed | ContextFailed
    | GetPlaneResourcesFailed
    | MakeCurrentFailed | ShaderFailed | PrimeFdToHandleFailed | AddFb2Failed | CreateImageFailed
    | SetPlaneFailed

  /** What drmModeGetResources reports. */
  datatype Resources = Resources(maxWidth: nat, maxHeight: nat, crtcs: seq<Crtc>, connectors: seq<Connector>)

  /** Every size and position the kernel reports fits in 32 bits, and there are at most 32
      CRTCs (the width of a plane's `possible_crtcs` mask). */
  predicate WellFormed(res: Resources)
  {
    && |res.crtcs| <= 32
    && (forall i :: 0 <= i < |res.crtcs| ==> CrtcFits(res.crtcs[i]))
    && (forall i :: 0 <= i < |res.connectors| && res.connectors[i].crtc.Some? ==>
          CrtcFits(res.connectors[i].crtc.value))
  }

  predicate CrtcFits(c: Crtc)
  {
    IsU32(c.x) && IsU32(c.y) && IsU32(c.width) && IsU32(c.height)
  }

  /** Whether each checked GBM / EGL set-up step of findCrtc succeeds: gbm_surface_create,
      eglInitialize, the allocation of the config array (`malloc` returning NULL throws "no
      configs"), eglChooseConfig and eglCreateContext. The code does not check
      gbm_create_device, and a failing eglGetConfigs only prints, so neither has a flag. */
  datatype GbmEgl = GbmEgl(surfaceOk: bool, initializeOk: bool, configsOk: bool,
                           chooseConfigOk: bool, contextOk: bool)

  /** What the device answers during construction. `getConnector` is the mode count of the
      chosen connector as drmModeGetConnector reports it (None when the call fails);
      `planes` is the plane list of drmModeGetPlaneResources. */
  datatype Device = Device(openOk: bool, isMaster: bool, resources: Option<Resources>,
                           getConnector: Option<nat>, gbmEgl: GbmEgl, planes: Option<seq<Plane>>)

  /** The per-fd cache entry. A default-constructed entry has `fd == -1`; the other members
      are uninitialised in C++ and 0 here. */
  datatype Buffer = Buffer(fd: int, size: nat, info: StreamInfo, boHandle: nat, fbHandle: nat, texture: nat)

  const EmptyBuffer := Buffer(-1, 0, DefaultInfo, 0, 0, 0)

  /** What the calls made while importing one buffer answer: eglMakeCurrent, the plane's
      property list, drmModeObjectSetProperty, the shader build, drmPrimeFDToHandle,
      gbm_surface_lock_front_buffer, drmModeAddFB2, eglCreateImageKHR and glGenTextures. */
  datatype ImportEnv = ImportEnv(makeCurrentOk: bool, planeProps: seq<Option<Property>>,
                                 setPropertyResult: int, shadersOk: bool, primeHandle: Option<nat>,
                                 frontBo: Option<nat>, fbHandle: Option<nat>, imageOk: bool,
                                 texture: nat)

  /** The first step of makeBuffer that fails, if any; the one-time set-up steps are only
      taken when the lazy-initialisation flag is set. */
  function ImportFailure(firstTime: bool, env: ImportEnv): (r: Option<DrmError>)
    ensures r.None? <==> (firstTime ==> env.makeCurrentOk && env.shadersOk) &&
                         env.primeHandle.Some? && env.fbHandle.Some? && env.imageOk
    ensures !firstTime ==> r != Some(MakeCurrentFailed) && r != Some(ShaderFailed)
  {
    if firstTime && !env.makeCurrentOk then Some(MakeCurrentFailed)
    else if firstTime && !env.shadersOk then Some(ShaderFailed)
    else if env.primeHandle.None? then Some(PrimeFdToHandleFailed)
    else if env.fbHandle.None? then Some(AddFb2Failed)
    else if !env.imageOk then Some(CreateImageFailed)
    else None
  }

  /** Names of the plane properties the colour set-up writes. */
  const ColorEncodingProp: string := "COLOR_ENCODING"
  const ColorRangeProp: string := "COLOR_RANGE"

  /** How far makeBuffer fills the entry `e` before its first failing import step; all of
      it when none fails. */
  function FilledEntry(e: Buffer, fd: int, size: nat, info: StreamInfo, env: ImportEnv): (b: Buffer)
    ensures b.fd == fd && b.size == size && b.info == info
    ensures ImportFailure(false, env).None? ==>
              b == Buffer(fd, size, info, env.primeHandle.value, env.fbHandle.value, env.texture)
  {
    var b1 := e.(fd := fd, size := size, info := info);
    if env.primeHandle.None? then b1
    else
      var b2 := b1.(boHandle := env.primeHandle.value);
      if env.fbHandle.None? then b2
      else
        var b3 := b2.(fbHandle := env.fbHandle.value);
        if !env.imageOk then b3 else b3.(texture := env.texture)
  }

  /** The two drm_set_property calls of setup_colour_space: COLOR_ENCODING and then
      COLOR_RANGE, with the names DrmColourInfo gives for the stream's colour space. */
  function ColourCalls(cs: Option<ColourSpace>, props: seq<Option<Property>>): (c: seq<Call>)
    ensures |c| == 2 && c[0].ColourProperty? && c[1].ColourProperty?
    ensures c[0].search == PropertyChoice(props, ColorEncodingProp, DrmColourInfo(cs).encoding)
    ensures c[1].search == PropertyChoice(props, ColorRangeProp, DrmColourInfo(cs).range)
  {
    var names := DrmColourInfo(cs);
    [ColourProperty(PropertyChoice(props, ColorEncodingProp, names.encoding)),
     ColourProperty(PropertyChoice(props, ColorRangeProp, names.range))]
  }

  /** What a colour write of setup_colour_space carries: the value of an enum entry whose
      name contains the name DrmColourInfo chose (so "709" for a Rec709 stream), taken from
      a readable enum property whose name contains COLOR_ENCODING or COLOR_RANGE. */
  predicate WritesNamed(props: seq<Option<Property>>, s: PropertySearch, name: string, val: string)
  {
    s.Write? ==>
      exists k, e ::
        && 0 <= k < |props| && Matches(props[k], name)
        && 0 <= e < |props[k].value.enums| && Contains(props[k].value.enums[e].name, val)
        && props[k].value.id == s.propId && props[k].value.enums[e].value == s.value
  }

  lemma ColourWritesNamed(cs: Option<ColourSpace>, props: seq<Option<Property>>)
    ensures WritesNamed(props, ColourCalls(cs, props)[0].search, ColorEncodingProp, DrmColourInfo(cs).encoding)
    ensures WritesNamed(props, ColourCalls(cs, props)[1].search, ColorRangeProp, DrmColourInfo(cs).range)
    ensures cs == Some(Rec709) ==>
              WritesNamed(props, ColourCalls(cs, props)[0].search, ColorEncodingProp, "709")
  {
    var names := DrmColourInfo(cs);
    ChoiceNamed(props, ColorEncodingProp, names.encoding);
    ChoiceNamed(props, ColorRangeProp, names.range);
  }

  /** A write PropertyChoice picks satisfies WritesNamed. */
  lemma ChoiceNamed(props: seq<Option<Property>>, name: string, val: string)
    ensures WritesNamed(props, PropertyChoice(props, name, val), name, val)
  {
    var s := PropertyChoice(props, name, val);
    if s.Write? {
      var k := FirstProperty(props, name).value;
      var e := FirstEnum(props[k].value.enums, val).value;
      assert props[k].value.enums[e].value == s.value;
    }
  }

  /** The arguments of one drmModeSetPlane call. */
  datatype PlaneRequest = PlaneRequest(planeId: nat, crtcId: nat, fb: nat,
                                       crtcX: nat, crtcY: nat, crtcW: nat, crtcH: nat,
                                       srcW: nat, srcH: nat)

  /** What one drmModeSetPlane call of Show is made from: the plane and the CRTC, the
      entry's framebuffer and the stream info it was imported with, the info passed to
      Show, and the preview rectangle. */
  datatype SetPlaneArgs = SetPlaneArgs(planeId: nat, crtcId: nat, fb: nat, imported: StreamInfo,
                                       shown: StreamInfo, preview: Rect)

  /** The values Show computes with are `unsigned int` and it divides by a non-zero size. */
  predicate SetPlaneDefined(a: SetPlaneArgs)
  {
    && IsU32(a.shown.width) && IsU32(a.shown.height)
    && IsU32(a.preview.x) && IsU32(a.preview.y) && IsU32(a.preview.w) && IsU32(a.preview.h)
    && AspectFitDefined(a.shown.width, a.shown.height, a.preview.w, a.preview.h)
  }

  /** The arguments of that call, in `unsigned int`: the destination is the aspect fit of
      the stream inside the preview rectangle, offset by the rectangle's position; the
      source is the whole imported image in 16.16 fixed point. */
  function SetPlaneRequest(a: SetPlaneArgs): (p: PlaneRequest)
    requires SetPlaneDefined(a)
    ensures p.planeId == a.planeId && p.crtcId == a.crtcId && p.fb == a.fb
  {
    var fit := AspectFit(a.shown.width, a.shown.height, a.preview.w, a.preview.h);
    PlaneRequest(a.planeId, a.crtcId, a.fb, Add32(fit.x, a.preview.x), Add32(fit.y, a.preview.y),
                 fit.w, fit.h, Mul32(a.imported.width, 0x1_0000), Mul32(a.imported.height, 0x1_0000))
  }

  /** When nothing wraps, the plane shows the stream letterboxed inside the preview
      rectangle, filling it in one dimension, and reads the whole imported image. */
  lemma SetPlaneInsidePreview(a: SetPlaneArgs)
    requires SetPlaneDefined(a) && a.shown.width > 0 && a.shown.height > 0
    requires a.shown.width * a.preview.h < U32 && a.preview.w * a.shown.height < U32
    requires a.preview.x + a.preview.w < U32 && a.preview.y + a.preview.h < U32
    requires a.imported.width < 0x1_0000 && a.imported.height < 0x1_0000
    ensures var p := SetPlaneRequest(a);
      && a.preview.x <= p.crtcX && p.crtcX + p.crtcW <= a.preview.x + a.preview.w
      && a.preview.y <= p.crtcY && p.crtcY + p.crtcH <= a.preview.y + a.preview.h
      && (p.crtcW == a.preview.w || p.crtcH == a.preview.h)
      && p.srcW == a.imported.width * 0x1_0000 && p.srcH == a.imported.height * 0x1_0000
  {
    AspectFitLetterboxes(a.shown.width, a.shown.height, a.preview.w, a.preview.h);
  }

  /** The rectangle findCrtc leaves in `x_`, `y_`, `width_`, `height_`: the CRTC's own when
      full screen is asked for or a requested dimension is zero, the requested one otherwise. */
  function StartGeometry(options: Options, crtc: Crtc): (r: Rect)
    ensures options.fullscreen ==> r == Rect(crtc.x, crtc.y, crtc.width, crtc.height)
    ensures !options.fullscreen && (options.width == 0 || options.height == 0) ==>
              r == Rect(crtc.x, crtc.y, crtc.width, crtc.height)
    ensures !options.fullscreen && options.width > 0 && options.height > 0 ==>
              r == Rect(options.x, options.y, options.width, options.height)
  {
    if options.fullscreen || options.width == 0 || options.height == 0
    then Rect(crtc.x, crtc.y, crtc.width, crtc.height)
    else Rect(options.x, options.y, options.width, options.height)
  }

  /** A call the back-end makes to the kernel, GBM, EGL or GL, with what it is made from. */
  datatype Call =
    | ColourProperty(search: PropertySearch)   // drm_set_property of the colour set-up
    | SwapBuffers                               // eglSwapBuffers
    | AddFramebuffer(fb: AddFb2Args)            // drmModeAddFB2
    | CreateImage(image: ImportArgs)            // eglCreateImageKHR
    | RemoveFramebuffer(fbId: nat)              // drmModeRmFB
    | ReleaseBo(bo: nat)                        // gbm_surface_release_buffer
    | DrawQuad(draw: Draw)                      // the mesh drawn with a texture and a viewport
    | SetPlane(plane: SetPlaneArgs)             // drmModeSetPlane
    | DeleteTexture(texture: nat)               // glDeleteTextures

  /** The one-time set-up of makeBuffer throws: eglMakeCurrent or the shader build fails. */
  predicate SetUpFails(firstTime: bool, env: ImportEnv)
  {
    firstTime && !(env.makeCurrentOk && env.shadersOk)
  }

  /** The calls of the import proper: once the fd has a GEM handle, a swap (before the front
      buffer is locked) and the framebuffer request; once that succeeds, the EGL image
      request, with the fixed BT.601 / narrow-range hints. */
  function ImportCalls(fd: int, info: StreamInfo, env: ImportEnv): seq<Call>
  {
    if env.primeHandle.None? then []
    else
      [SwapBuffers, AddFramebuffer(AddFb2Args(info, env.primeHandle.value, DrmFormatYuv420))] +
      (if env.fbHandle.None? then [] else [CreateImage(ImportArgs(info, fd, ItuRec601, YuvNarrowRange))])
  }

  /** The calls that give up the framebuffer and GBM buffer remembered from the previous
      import, when there is one. */
  function RotateCalls(previousBo: Option<nat>, previousFb: nat): seq<Call>
  {
    if previousBo.Some? then [RemoveFramebuffer(previousFb), ReleaseBo(previousBo.value)] else []
  }

  /** The calls of one makeBuffer, up to the step that throws. */
  function MakeBufferCalls(firstTime: bool, fd: int, info: StreamInfo, env: ImportEnv,
                           previousBo: Option<nat>, previousFb: nat): seq<Call>
  {
    (if firstTime && env.makeCurrentOk then ColourCalls(info.colourSpace, env.planeProps) else []) +
    (if SetUpFails(firstTime, env) then []
     else ImportCalls(fd, info, env) +
          (if ImportFailure(false, env).None? then RotateCalls(previousBo, previousFb) else []))
  }

  /** What one makeBuffer asks for, whatever step fails: a framebuffer exactly when the
      set-up passed and the fd got a GEM handle, and always the 4:2:0 layout of the stream on
      that handle; an EGL image exactly when the framebuffer was created, and always of the
      fd with the fixed hints. */
  lemma {:induction false} MakeBufferRequests(firstTime: bool, fd: int, info: StreamInfo, env: ImportEnv,
                                              previousBo: Option<nat>, previousFb: nat)
    ensures var c := MakeBufferCalls(firstTime, fd, info, env, previousBo, previousFb);
      && ((exists i :: 0 <= i < |c| && c[i].AddFramebuffer?) <==>
            !SetUpFails(firstTime, env) && env.primeHandle.Some?)
      && (forall i :: 0 <= i < |c| && c[i].AddFramebuffer? ==>
            c[i].fb == AddFb2Args(info, env.primeHandle.value, DrmFormatYuv420))
      && ((exists i :: 0 <= i < |c| && c[i].CreateImage?) <==>
            !SetUpFails(firstTime, env) && env.primeHandle.Some? && env.fbHandle.Some?)
      && (forall i :: 0 <= i < |c| && c[i].CreateImage? ==>
            c[i].image == ImportArgs(info, fd, ItuRec601, YuvNarrowRange))
  {
    var pre := if firstTime && env.makeCurrentOk then ColourCalls(info.colourSpace, env.planeProps) else [];
    var c := MakeBufferCalls(firstTime, fd, info, env, previousBo, previousFb);
    assert forall i :: 0 <= i < |pre| ==> pre[i].ColourProperty?;
    if SetUpFails(firstTime, env) || env.primeHandle.None? {
      assert c == pre;
    } else {
      var rot := if ImportFailure(false, env).None? then RotateCalls(previousBo, previousFb) else [];
      assert forall i :: 0 <= i < |rot| ==> rot[i].RemoveFramebuffer? || rot[i].ReleaseBo?;
      var n := |pre|;
      assert c[n + 1].AddFramebuffer?;
      if env.fbHandle.Some? {
        assert c == pre + [c[n], c[n + 1], c[n + 2]] + rot;
        assert c[n + 2].CreateImage?;
      } else {
        assert c == pre + [c[n], c[n + 1]] + rot;
      }
    }
  }

  /** The framebuffer and GBM buffer of the previous import are given up exactly when the
      whole import succeeds and there is a previous one, and only after the new framebuffer
      has been added. */
  lemma {:induction false} PreviousGivenUpLast(firstTime: bool, fd: int, info: StreamInfo, env: ImportEnv,
                                               previousBo: Option<nat>, previousFb: nat)
    ensures var c := MakeBufferCalls(firstTime, fd, info, env, previousBo, previousFb);
      && ((exists i :: 0 <= i < |c| && c[i].ReleaseBo?) <==>
            ImportFailure(firstTime, env).None? && previousBo.Some?)
      && (forall i :: 0 <= i < |c| && c[i].ReleaseBo? ==> c[i].bo == previousBo.value)
      && (forall j :: 0 <= j < |c| && c[j].RemoveFramebuffer? ==>
            c[j].fbId == previousFb && exists i :: 0 <= i < j && c[i].AddFramebuffer?)
  {
    var pre := if firstTime && env.makeCurrentOk then ColourCalls(info.colourSpace, env.planeProps) else [];
    var c := MakeBufferCalls(firstTime, fd, info, env, previousBo, previousFb);
    assert forall i :: 0 <= i < |pre| ==> pre[i].ColourProperty?;
    if SetUpFails(firstTime, env) || env.primeHandle.None? {
      assert c == pre;
    } else {
      var imp := ImportCalls(fd, info, env);
      var n := |pre|;
      assert forall i :: 0 <= i < |imp| ==> !imp[i].ReleaseBo? && !imp[i].RemoveFramebuffer?;
      if ImportFailure(false, env).None? && previousBo.Some? {
        assert c == pre + imp + [RemoveFramebuffer(previousFb), ReleaseBo(previousBo.value)];
        assert c[n + 1].AddFramebuffer?;
        assert c[|c| - 1].ReleaseBo?;
      } else {
        assert c == pre + imp;
      }
    }
  }

  /** The calls of Show once the entry is ready: the texture drawn into each half of the
      screen, the swap, and the plane update. */
  function PresentCalls(b: Buffer, info: StreamInfo, planeId: nat, crtcId: nat, preview: Rect): seq<Call>
  {
    [DrawQuad(Draw(b.texture, LeftHalf)), DrawQuad(Draw(b.texture, RightHalf)), SwapBuffers,
     SetPlane(SetPlaneArgs(planeId, crtcId, b.fbHandle, b.info, info, preview))]
  }

  /** The calls of Reset's walk over the entries `keys` of `m`, in that order: the
      framebuffer removed, then the texture deleted. */
  ghost function ResetCalls(m: map<int, Buffer>, keys: seq<int>): (c: seq<Call>)
    ensures |c| == 2 * |keys|
  {
    if keys == [] then []
    else
      var k := keys[|keys| - 1];
      var b := if k in m then m[k] else EmptyBuffer;
      ResetCalls(m, keys[..|keys| - 1]) + [RemoveFramebuffer(b.fbHandle), DeleteTexture(b.texture)]
  }

  /** Reset's walk over the map reaches every entry once: each entry's framebuffer is
      removed and its texture deleted, two calls per entry. */
  lemma EveryEntryReleased(m: map<int, Buffer>)
    ensures var c := ResetCalls(m, KeysAscending(m.Keys));
      && |c| == 2 * |m|
      && forall k :: k in m ==> RemoveFramebuffer(m[k].fbHandle) in c && DeleteTexture(m[k].texture) in c
  {
    var keys := KeysAscending(m.Keys);
    var c := ResetCalls(m, keys);
    KeysAscendingMembers(m.Keys);
    forall k | k in m
      ensures RemoveFramebuffer(m[k].fbHandle) in c && DeleteTexture(m[k].texture) in c
    {
      var j :| 0 <= j < |keys| && keys[j] == k;
      ReleasedAt(m, keys, j);
    }
  }

  /** Position `i` of the walk releases the entry filed under `keys[i]`. */
  lemma {:induction false} ReleasedAt(m: map<int, Buffer>, keys: seq<int>, i: int)
    requires 0 <= i < |keys| && keys[i] in m
    ensures ResetCalls(m, keys)[2 * i] == RemoveFramebuffer(m[keys[i]].fbHandle)
    ensures ResetCalls(m, keys)[2 * i + 1] == DeleteTexture(m[keys[i]].texture)
    decreases |keys|
  {
    if i < |keys| - 1 {
      var front := keys[..|keys| - 1];
      ReleasedAt(m, front, i);
      assert ResetCalls(m, keys)[2 * i] == ResetCalls(m, front)[2 * i];
      assert ResetCalls(m, keys)[2 * i + 1] == ResetCalls(m, front)[2 * i + 1];
    }
  }

  /** The first step of the GBM and EGL set-up at the end of findCrtc that throws, if any:
      gbm_surface_create, eglInitialize, the config array allocation, eglChooseConfig,
      eglCreateContext. */
  function GbmEglFailure(g: GbmEgl): (e: Option<DrmError>)
    ensures e.None? <==> g.surfaceOk && g.initializeOk && g.configsOk && g.chooseConfigOk && g.contextOk
    ensures e.Some? ==> e.value in {GbmSurfaceFailed, EglInitializeFailed, NoConfigs, ChooseConfigFailed, ContextFailed}
  {
    if !g.surfaceOk then Some(GbmSurfaceFailed)
    else if !g.initializeOk then Some(EglInitializeFailed)
    else if !g.configsOk then Some(NoConfigs)
    else if !g.chooseConfigOk then Some(ChooseConfigFailed)
    else if !g.contextOk then Some(ContextFailed)
    else None
  }

  /** Some CRTC in the resource list has id `crtcId`. */
  predicate HasCrtc(crtcs: seq<Crtc>, crtcId: nat)
  {
    exists j :: 0 <= j < |crtcs| && crtcs[j].id == crtcId
  }

  /** The first check of findCrtc that throws, if any, in source order: the resources, a
      CRTC at all, an eligible connector, its CRTC's index, the connector re-read, its mode
      count, then the GBM and EGL set-up. */
  function FindCrtcFailure(res: Option<Resources>, getConnector: Option<nat>, g: GbmEgl): (e: Option<DrmError>)
    ensures e.None? <==>
              && res.Some? && |res.value.crtcs| > 0
              && FirstEligible(res.value.connectors).Some?
              && HasCrtc(res.value.crtcs, res.value.connectors[FirstEligible(res.value.connectors).value].crtc.value.id)
              && getConnector.Some? && getConnector.value > 0
              && GbmEglFailure(g).None?
    ensures res.Some? && |res.value.crtcs| > 0 && FirstEligible(res.value.connectors).Some? &&
            !HasCrtc(res.value.crtcs, res.value.connectors[FirstEligible(res.value.connectors).value].crtc.value.id) ==>
              e == Some(CrtcNotFound)
  {
    if res.None? then Some(GetResourcesFailed)
    else if |res.value.crtcs| == 0 then Some(NoCrtcs)
    else match FirstEligible(res.value.connectors)
      case None => Some(NoSuitableConnector)
      case Some(k) =>
        if !HasCrtc(res.value.crtcs, res.value.connectors[k].crtc.value.id) then Some(CrtcNotFound)
        else if getConnector.None? then Some(GetConnectorFailed)
        else if getConnector.value == 0 then Some(NoMode)
        else GbmEglFailure(g)
  }

  /** The exception the DrmPreview constructor throws, if any, in source order: drmOpen,
      drmIsMaster, findCrtc, then the plane list of findPlane. */
  function CreateFailure(dev: Device): (e: Option<DrmError>)
    ensures e.None? <==>
              dev.openOk && dev.isMaster && FindCrtcFailure(dev.resources, dev.getConnector, dev.gbmEgl).None? &&
              dev.planes.Some?
    ensures dev.openOk && dev.isMaster && FindCrtcFailure(dev.resources, dev.getConnector, dev.gbmEgl).Some? ==>
              e == FindCrtcFailure(dev.resources, dev.getConnector, dev.gbmEgl)
  {
    if !dev.openOk then Some(OpenFailed)
    else if !dev.isMaster then Some(NotMaster)
    else if FindCrtcFailure(dev.resources, dev.getConnector, dev.gbmEgl).Some? then
      FindCrtcFailure(dev.resources, dev.getConnector, dev.gbmEgl)
    else if dev.planes.None? then Some(GetPlaneResourcesFailed)
    else None
  }

  /** Every cache entry is either default (fd -1) or holds the fd it is filed under. */
  predicate KeyedEntries(m: map<int, Buffer>)
  {
    forall k :: k in m ==> m[k].fd == -1 || m[k].fd == k
  }

  /** `m[fd]` exists and has been imported (at least up to its fd). */
  predicate Cached(m: map<int, Buffer>, fd: int)
  {
    fd in m && m[fd].fd != -1
  }

  /** `m[fd]` as `operator[]` returns it: default-constructed when missing. */
  function EntryOf(m: map<int, Buffer>, fd: int): Buffer
  {
    if fd in m then m[fd] else EmptyBuffer
  }

  /** The entry for `fd` after Show's lookup in `m`: kept when cached or when the one-time
      set-up throws, otherwise filled as far as the import got. */
  function Looked(m: map<int, Buffer>, fd: int, size: nat, info: StreamInfo, firstTime: bool,
                  env: ImportEnv): Buffer
  {
    var e := EntryOf(m, fd);
    if Cached(m, fd) || SetUpFails(firstTime, env) then e else FilledEntry(e, fd, size, info, env)
  }

  /** The exception Show's lookup of `fd` in `m` throws, if any. */
  function LookupFailure(m: map<int, Buffer>, fd: int, firstTime: bool, env: ImportEnv): Option<DrmError>
  {
    if Cached(m, fd) then None else ImportFailure(firstTime, env)
  }

  /** The calls of Show's lookup of `fd` in `m`: none on a hit, makeBuffer's on a miss. */
  function LookupCalls(m: map<int, Buffer>, fd: int, info: StreamInfo, firstTime: bool, env: ImportEnv,
                       previousBo: Option<nat>, previousFb: nat): seq<Call>
  {
    if Cached(m, fd) then [] else MakeBufferCalls(firstTime, fd, info, env, previousBo, previousFb)
  }

  /** The cache promise of Show's lookup of `fd` in `m`: no other entry changes, and an
      imported entry never changes; an fd whose lookup did not throw holds the GEM handle,
      framebuffer and texture of its own import when it was a miss, and (unless it is the
      marker -1 itself) is cached, so every later lookup of it is a hit that asks for nothing. */
  lemma {:induction false} ImportedOnce(m: map<int, Buffer>, fd: int, size: nat, info: StreamInfo,
                                        firstTime: bool, env: ImportEnv)
    requires KeyedEntries(m)
    ensures var m2 := m[fd := Looked(m, fd, size, info, firstTime, env)];
      && KeyedEntries(m2) && m2.Keys == m.Keys + {fd}
      && (forall k :: k in m && (k != fd || Cached(m, k)) ==> m2[k] == m[k])
      && (LookupFailure(m, fd, firstTime, env).None? ==> m2[fd].fd == fd)
      && (!Cached(m, fd) && LookupFailure(m, fd, firstTime, env).None? ==>
            m2[fd] == Buffer(fd, size, info, env.primeHandle.value, env.fbHandle.value, env.texture))
      && (fd != -1 && LookupFailure(m, fd, firstTime, env).None? ==>
            && Cached(m2, fd)
            && (forall ft, e :: LookupFailure(m2, fd, ft, e).None?)
            && (forall sz, inf, ft, e :: Looked(m2, fd, sz, inf, ft, e) == m2[fd]))
  {
  }

  class DrmPreview {
    // Resolved at construction.
    var conId: nat
    var crtcId: nat
    var crtcIdx: int
    var planeId: nat
    var outFourcc: nat
    var x: nat
    var y: nat
    var width: nat
    var height: nat
    var screenWidth: nat
    var screenHeight: nat
    var maxImageWidth: nat
    var maxImageHeight: nat

    // Frame state.
    var buffers: map<int, Buffer>
    var lastFd: int
    var firstTime: bool

    // The file-scope globals `bo`, `previous_bo` (None for NULL) and `previous_fb`.
    var bo: Option<nat>
    var previousBo: Option<nat>
    var previousFb: nat

    /** Whether the EGL context is current in this thread. */
    ghost var contextCurrent: bool
    /** The calls made to the kernel, GBM, EGL and GL since construction, in order. */
    ghost var calls: seq<Call>
    /** The fds shown successfully since construction or the last Reset. */
    ghost var shown: seq<int>
    /** Arguments of done_callback_, ever. */
    ghost var released: seq<int>
    /** `released` as it stood at the last Reset. */
    ghost var releasedBeforeReset: seq<int>

    /** The release protocol and the shape of the cache:
        - an entry is either default-constructed or keyed by its own fd;
        - `last_fd_` is the fd shown last since the last Reset (-1 if none), and the done
          callback has been given exactly the fds ReleasesOf describes for those Shows;
        - every fd shown since then still has its entry. */
    ghost predicate Valid()
      reads this`buffers, this`lastFd, this`shown, this`released, this`releasedBeforeReset,
            this`x, this`y, this`width, this`height, this`outFourcc
    {
      && KeyedEntries(buffers)
      && (forall i :: 0 <= i < |shown| ==> shown[i] in buffers)
      && lastFd == LastShown(shown)
      && released == releasedBeforeReset + ReleasesOf(shown)
      && Placed()
    }

    /** The preview rectangle is in `unsigned int` range and the output format is fixed. */
    predicate Placed()
      reads this`x, this`y, this`width, this`height, this`outFourcc
    {
      IsU32(x) && IsU32(y) && IsU32(width) && IsU32(height) && outFourcc == DrmFormatYuv420
    }

    /** The state the member initialisers and the first lines of the constructor set up. */
    constructor (options: Options)
      ensures x == options.x && y == options.y && width == options.width && height == options.height
      ensures screenWidth == 0 && screenHeight == 0 && conId == 0 && planeId == 0
      ensures buffers == map[] && lastFd == -1 && firstTime
      ensures previousBo == None && bo == None
      ensures shown == [] && released == [] && releasedBeforeReset == []
      ensures !contextCurrent && calls == []
    {
      x, y, width, height := options.x, options.y, options.width, options.height;
      screenWidth, screenHeight := 0, 0;
      conId, crtcId, crtcIdx, planeId, outFourcc := 0, 0, 0, 0, 0;
      maxImageWidth, maxImageHeight := 0, 0;
      buffers, lastFd, firstTime := map[], -1, true;
      bo, previousBo, previousFb := None, None, 0;
      contextCurrent, calls := false, [];
      shown, released, releasedBeforeReset := [], [], [];
    }

    /** conId_, crtcId_, crtcIdx_ and the screen size are what the searches over `res` give. */
    ghost predicate SelectedFrom(res: Resources)
      reads this`conId, this`crtcId, this`crtcIdx, this`screenWidth, this`screenHeight
    {
      && (match FirstEligible(res.connectors)
          case Some(k) => conId == res.connectors[k].id && crtcId == res.connectors[k].crtc.value.id
          case None => false)
      && 0 <= crtcIdx < |res.crtcs|
      && res.crtcs[crtcIdx].id == crtcId
      && (forall j :: 0 <= j < crtcIdx ==> res.crtcs[j].id != crtcId)
      && (match LastActive(res.connectors)
          case Some(k) => screenWidth == res.connectors[k].crtc.value.width &&
                          screenHeight == res.connectors[k].crtc.value.height
          case None => false)
    }

    /** findCrtc, entered with `conId_ == 0`: picks the connector and its CRTC, finds the
        CRTC's index, checks the connector has a mode, takes the CRTC's geometry when full
        screen or a zero size was asked for, and sets up GBM and EGL. */
    method FindCrtc(res: Option<Resources>, getConnector: Option<nat>, gbmEgl: GbmEgl, fullscreen: bool)
      returns (o: Outcome<DrmError>)
      requires conId == 0
      requires res.Some? ==> WellFormed(res.value)
      requires IsU32(x) && IsU32(y) && IsU32(width) && IsU32(height)
      modifies this`maxImageWidth, this`maxImageHeight, this`conId, this`crtcId, this`crtcIdx,
               this`screenWidth, this`screenHeight, this`x, this`y, this`width, this`height
      ensures IsU32(x) && IsU32(y) && IsU32(width) && IsU32(height)
      ensures o == (match FindCrtcFailure(res, getConnector, gbmEgl) case Some(e) => Fail(e) case None => Pass)
      ensures o.Pass? ==> res.Some? && SelectedFrom(res.value)
      ensures o.Pass? ==> IsU32(screenWidth) && IsU32(screenHeight)
      ensures o.Pass? ==> maxImageWidth == res.value.maxWidth && maxImageHeight == res.value.maxHeight
      ensures o.Pass? ==>
                Rect(x, y, width, height) ==
                StartGeometry(Options(old(x), old(y), old(width), old(height), fullscreen), res.value.crtcs[crtcIdx])
    {
      if res.None? {
        return Fail(GetResourcesFailed);
      }
      var r := res.value;
      if |r.crtcs| == 0 {
        return Fail(NoCrtcs);
      }
      o := SelectCrtc(r);
      if o.Fail? {
        return;
      }
      if getConnector.None? {
        return Fail(GetConnectorFailed);
      }
      if getConnector.value == 0 {
        return Fail(NoMode);
      }
      var g := StartGeometry(Options(x, y, width, height, fullscreen), r.crtcs[crtcIdx]);
      x, y, width, height := g.x, g.y, g.w, g.h;
      var e := GbmEglFailure(gbmEgl);
      if e.Some? {
        return Fail(e.value);
      }
      o := Pass;
    }

    /** The connector and CRTC part of findCrtc: the limits are recorded, the connectors
        are scanned for the first one with a CRTC (the screen size comes from the last such
        one), and the CRTC's index in the resource list is looked up. */
    method SelectCrtc(r: Resources) returns (o: Outcome<DrmError>)
      requires conId == 0 && |r.crtcs| > 0 && WellFormed(r)
      modifies this`maxImageWidth, this`maxImageHeight, this`conId, this`crtcId, this`crtcIdx,
               this`screenWidth, this`screenHeight
      ensures maxImageWidth == r.maxWidth && maxImageHeight == r.maxHeight
      ensures o == (match FirstEligible(r.connectors)
                    case None => Fail(NoSuitableConnector)
                    case Some(k) => if HasCrtc(r.crtcs, r.connectors[k].crtc.value.id) then Pass else Fail(CrtcNotFound))
      ensures o.Pass? ==> SelectedFrom(r) && IsU32(screenWidth) && IsU32(screenHeight)
    {
      maxImageWidth, maxImageHeight := r.maxWidth, r.maxHeight;
      conId, crtcId, screenWidth, screenHeight := ScanConnectors(r.connectors, crtcId, screenWidth, screenHeight);
      if conId == 0 {
        return Fail(NoSuitableConnector);
      }
      assert LastActive(r.connectors).Some? by {
        var k := FirstEligible(r.connectors).value;
        assert Active(r.connectors[k]);
      }
      crtcIdx := CrtcIndex(r.crtcs, crtcId);
      if crtcIdx == -1 {
        return Fail(CrtcNotFound);
      }
      o := Pass;
    }

    /** findPlane: with the plane list in hand, `planeId_` becomes the first plane usable on
        CRTC `crtcIdx_` with `out_fourcc_`, or keeps its value when there is none. */
    method FindPlane(planes: Option<seq<Plane>>) returns (o: Outcome<DrmError>)
      requires 0 <= crtcIdx < 32
      modifies this`planeId
      ensures planes.None? ==> o == Fail(GetPlaneResourcesFailed) && planeId == old(planeId)
      ensures planes.Some? ==> o == Pass
      ensures planes.Some? ==> match FirstSuitable(planes.value, crtcIdx, outFourcc)
        case Some(k) => planeId == planes.value[k].id
        case None => planeId == old(planeId)
    {
      if planes.None? {
        return Fail(GetPlaneResourcesFailed);
      }
      planeId := ChoosePlane(planes.value, crtcIdx, outFourcc, planeId);
      o := Pass;
    }

    /** The DrmPreview constructor: open the device, require DRM master, findCrtc, choose
        the 4:2:0 format, findPlane, then fall back to the whole screen when full screen was
        asked for, a size is zero, or the rectangle overruns the screen (in `unsigned int`). */
    static method Create(options: Options, dev: Device) returns (r: Result<DrmPreview, DrmError>)
      requires IsU32(options.x) && IsU32(options.y) && IsU32(options.width) && IsU32(options.height)
      requires dev.resources.Some? ==> WellFormed(dev.resources.value)
      ensures r.Err? <==> CreateFailure(dev).Some?
      ensures r.Err? ==> r.error == CreateFailure(dev).value
      ensures r.Ok? ==> fresh(r.value) && r.value.Valid()
      ensures r.Ok? ==> r.value.buffers == map[] && r.value.shown == [] && r.value.calls == []
      ensures r.Ok? ==> r.value.released == [] && r.value.releasedBeforeReset == []
      ensures r.Ok? ==> r.value.ConfiguredFrom(options, dev)
    {
      if !dev.openOk {
        return Err(OpenFailed);
      }
      var p := new DrmPreview(options);
      if !dev.isMaster {
        return Err(NotMaster);
      }
      var o := p.Configure(options, dev);
      if o.Fail? {
        return Err(o.error);
      }
      p.EmptyIsValid();
      r := Ok(p);
    }

    /** A preview with an empty cache and nothing shown since the last Reset is Valid once
        it is placed. */
    lemma EmptyIsValid()
      requires buffers == map[] && shown == [] && lastFd == -1 && released == releasedBeforeReset
      requires Placed()
      ensures Valid()
    {
    }

    /** What construction resolves from the options and the device: the connector, CRTC
        and screen size the searches give, the 4:2:0 output format, the first suitable
        plane (0 when there is none), and the preview rectangle: the CRTC's or the requested
        one, then the whole screen when full screen was asked for, a size is zero, or the
        rectangle overruns the screen (in `unsigned int`). */
    ghost predicate ConfiguredFrom(options: Options, dev: Device)
      reads this`conId, this`crtcId, this`crtcIdx, this`screenWidth, this`screenHeight,
            this`outFourcc, this`planeId, this`x, this`y, this`width, this`height
    {
      && dev.resources.Some? && dev.planes.Some?
      && SelectedFrom(dev.resources.value)
      && outFourcc == DrmFormatYuv420
      && (match FirstSuitable(dev.planes.value, crtcIdx, DrmFormatYuv420)
          case Some(k) => planeId == dev.planes.value[k].id
          case None => planeId == 0)
      && var g := StartGeometry(options, dev.resources.value.crtcs[crtcIdx]);
         Rect(x, y, width, height) ==
           DrmScreenFit(options.fullscreen, g.x, g.y, g.w, g.h, screenWidth, screenHeight)
    }

    /** The constructor once the device is open and master: findCrtc, the 4:2:0 output
        format, findPlane, and the final fit of the rectangle to the screen. */
    method Configure(options: Options, dev: Device) returns (o: Outcome<DrmError>)
      requires conId == 0 && planeId == 0
      requires x == options.x && y == options.y && width == options.width && height == options.height
      requires dev.resources.Some? ==> WellFormed(dev.resources.value)
      requires IsU32(x) && IsU32(y) && IsU32(width) && IsU32(height)
      modifies this`maxImageWidth, this`maxImageHeight, this`conId, this`crtcId, this`crtcIdx,
               this`screenWidth, this`screenHeight, this`x, this`y, this`width, this`height,
               this`outFourcc, this`planeId
      ensures o == (match FindCrtcFailure(dev.resources, dev.getConnector, dev.gbmEgl)
                    case Some(e) => Fail(e)
                    case None => if dev.planes.Some? then Pass else Fail(GetPlaneResourcesFailed))
      ensures o.Pass? ==> Placed() && ConfiguredFrom(options, dev)
    {
      var fullscreen := options.fullscreen;
      o := FindCrtc(dev.resources, dev.getConnector, dev.gbmEgl, fullscreen);
      if o.Fail? {
        return;
      }
      outFourcc := DrmFormatYuv420;
      assert crtcIdx < 32 by {
        assert WellFormed(dev.resources.value);
      }
      o := FindPlane(dev.planes);
      if o.Fail? {
        return;
      }
      var fit := DrmScreenFit(fullscreen, x, y, width, height, screenWidth, screenHeight);
      x, y, width, height := fit.x, fit.y, fit.w, fit.h;
    }

    /** setup_colour_space: writes the plane's COLOR_ENCODING and COLOR_RANGE properties
        from the stream's colour space (whatever drm_set_property finds, the result is not
        checked), then builds the shaders, which throws if they do not compile or link. */
    method SetupColourSpace(cs: Option<ColourSpace>, env: ImportEnv) returns (r: Outcome<DrmError>)
      modifies this`calls
      ensures calls == old(calls) + ColourCalls(cs, env.planeProps)
      ensures r == (if env.shadersOk then Pass else Fail(ShaderFailed))
    {
      var names := DrmColourInfo(cs);
      var ret1, found1 := SetProperty(env.planeProps, ColorEncodingProp, names.encoding, env.setPropertyResult);
      var ret2, found2 := SetProperty(env.planeProps, ColorRangeProp, names.range, env.setPropertyResult);
      calls := calls + [ColourProperty(found1), ColourProperty(found2)];
      r := if env.shadersOk then Pass else Fail(ShaderFailed);
    }

    /** makeBuffer: on the first import since construction or Reset, clears the flag (before
        trying), makes the context current and runs setup_colour_space; then fills the
        entry and imports the fd, and finally rotates the `previous_bo` / `previous_fb`
        globals. A step that fails throws and leaves the entry as far as it got. */
    method MakeBuffer(fd: int, size: nat, info: StreamInfo, env: ImportEnv) returns (r: Outcome<DrmError>)
      requires fd in buffers && outFourcc == DrmFormatYuv420
      requires IsU32(info.width) && IsU32(info.height) && IsU32(info.stride)
      modifies this`buffers, this`firstTime, this`bo, this`previousBo, this`previousFb,
               this`contextCurrent, this`calls
      ensures r == (match ImportFailure(old(firstTime), env) case Some(e) => Fail(e) case None => Pass)
      ensures !firstTime
      ensures contextCurrent == (old(contextCurrent) || (old(firstTime) && env.makeCurrentOk))
      ensures calls == old(calls) + MakeBufferCalls(old(firstTime), fd, info, env, old(previousBo), old(previousFb))
      ensures buffers == if SetUpFails(old(firstTime), env) then old(buffers)
                         else old(buffers)[fd := FilledEntry(old(buffers)[fd], fd, size, info, env)]
      ensures bo == if !SetUpFails(old(firstTime), env) && env.primeHandle.Some? then env.frontBo else old(bo)
      ensures r.Pass? ==> previousBo == env.frontBo && previousFb == ToU32(fd)
      ensures r.Fail? ==> previousBo == old(previousBo) && previousFb == old(previousFb)
    {
      if firstTime {
        r := LazyInit(info.colourSpace, env);
        if r.Fail? {
          return;
        }
      }
      r := ImportEntry(fd, size, info, env);
      if r.Fail? {
        return;
      }
      RotatePrevious(fd);
    }

    /** The `first_time_` block of makeBuffer: the flag is cleared before anything is tried,
        so a failure here is not retried by the next import. */
    method LazyInit(cs: Option<ColourSpace>, env: ImportEnv) returns (r: Outcome<DrmError>)
      requires firstTime
      modifies this`firstTime, this`contextCurrent, this`calls
      ensures !firstTime
      ensures r == (if !env.makeCurrentOk then Fail(MakeCurrentFailed)
                    else if !env.shadersOk then Fail(ShaderFailed) else Pass)
      ensures contextCurrent == (old(contextCurrent) || env.makeCurrentOk)
      ensures calls == old(calls) + (if env.makeCurrentOk then ColourCalls(cs, env.planeProps) else [])
    {
      firstTime := false;
      if !env.makeCurrentOk {
        return Fail(MakeCurrentFailed);
      }
      contextCurrent := true;
      r := SetupColourSpace(cs, env);
    }

    /** The import proper: the entry gets fd, size and info, then a GEM handle for the fd,
        then (after a swap and locking the GBM front buffer into `bo`) a framebuffer, then a
        texture bound to an EGL image of the fd. The EGL attributes carry the fixed hints
        BT.601 / narrow range whatever the stream's colour space. */
    method ImportEntry(fd: int, size: nat, info: StreamInfo, env: ImportEnv) returns (r: Outcome<DrmError>)
      requires fd in buffers && outFourcc == DrmFormatYuv420
      requires IsU32(info.width) && IsU32(info.height) && IsU32(info.stride)
      modifies this`buffers, this`bo, this`calls
      ensures r == (match ImportFailure(false, env) case Some(e) => Fail(e) case None => Pass)
      ensures buffers == old(buffers)[fd := FilledEntry(old(buffers)[fd], fd, size, info, env)]
      ensures bo == if env.primeHandle.Some? then env.frontBo else old(bo)
      ensures calls == old(calls) + ImportCalls(fd, info, env)
    {
      var b := buffers[fd].(fd := fd, size := size, info := info);
      if env.primeHandle.None? {
        buffers := buffers[fd := b];
        return Fail(PrimeFdToHandleFailed);
      }
      b := b.(boHandle := env.primeHandle.value);
      bo := env.frontBo;
      calls := calls + [SwapBuffers, AddFramebuffer(AddFb2Args(info, b.boHandle, outFourcc))];
      if env.fbHandle.None? {
        buffers := buffers[fd := b];
        return Fail(AddFb2Failed);
      }
      b := b.(fbHandle := env.fbHandle.value);
      calls := calls + [CreateImage(ImportArgs(info, fd, ItuRec601, YuvNarrowRange))];
      if !env.imageOk {
        buffers := buffers[fd := b];
        return Fail(CreateImageFailed);
      }
      b := b.(texture := env.texture);
      buffers := buffers[fd := b];
      r := Pass;
    }

    /** The end of a successful makeBuffer: the framebuffer and GBM buffer remembered from
        the previous import are removed and released (when there is one), and the current
        `bo` and the fd (not the framebuffer handle) are remembered in their place. */
    method RotatePrevious(fd: int)
      modifies this`previousBo, this`previousFb, this`calls
      ensures previousBo == bo && previousFb == ToU32(fd)
      ensures calls == old(calls) + RotateCalls(old(previousBo), old(previousFb))
    {
      if previousBo.Some? {
        calls := calls + [RemoveFramebuffer(previousFb), ReleaseBo(previousBo.value)];
      }
      previousBo := bo;
      previousFb := ToU32(fd);
    }

    /** Show: look the fd up (inserting a default entry), import it when the entry is still
        default, draw its texture into both halves of the screen, swap, and put the
        framebuffer on the overlay plane. Only when that succeeds is the previously shown fd
        handed back and the new one remembered. */
    method Show(fd: int, size: nat, info: StreamInfo, env: ImportEnv, setPlaneOk: bool) returns (r: Outcome<DrmError>)
      requires Valid()
      requires IsU32(info.width) && IsU32(info.height) && IsU32(info.stride)
      requires AspectFitDefined(info.width, info.height, width, height)
      modifies this`buffers, this`firstTime, this`bo, this`previousBo, this`previousFb,
               this`contextCurrent, this`calls, this`lastFd, this`shown, this`released
      ensures Valid()
      ensures buffers == old(buffers)[fd := Looked(old(buffers), fd, size, info, old(firstTime), env)]
      ensures firstTime == (Cached(old(buffers), fd) && old(firstTime))
      ensures LookedUp(old(buffers), fd, old(firstTime), env, old(contextCurrent), old(bo), old(previousBo), old(previousFb))
      ensures r == (match LookupFailure(old(buffers), fd, old(firstTime), env)
                    case Some(e) => Fail(e)
                    case None => if setPlaneOk then Pass else Fail(SetPlaneFailed))
      ensures calls == old(calls) + LookupCalls(old(buffers), fd, info, old(firstTime), env, old(previousBo), old(previousFb)) +
                (if LookupFailure(old(buffers), fd, old(firstTime), env).None?
                 then PresentCalls(buffers[fd], info, planeId, crtcId, Rect(x, y, width, height))
                 else [])
      ensures r.Pass? ==> lastFd == fd && shown == old(shown) + [fd]
      ensures r.Pass? ==> released == old(released) + (if old(lastFd) >= 0 then [old(lastFd)] else [])
      ensures r.Fail? ==> lastFd == old(lastFd) && shown == old(shown) && released == old(released)
    {
      ghost var failure := LookupFailure(buffers, fd, firstTime, env);
      r := Obtain(fd, size, info, env);
      if r.Fail? {
        return;
      }
      assert failure.None?;
      r := Present(buffers[fd], info, setPlaneOk);
      if r.Fail? {
        return;
      }
      Remember(fd);
    }

    /** After Show's lookup of `fd` in `m`: a hit leaves the context, `bo` and the
        `previous_bo` / `previous_fb` globals alone; a miss leaves them as makeBuffer does. */
    ghost predicate LookedUp(m: map<int, Buffer>, fd: int, firstTime: bool, env: ImportEnv,
                             contextCurrent0: bool, bo0: Option<nat>, previousBo0: Option<nat>, previousFb0: nat)
      reads this`contextCurrent, this`bo, this`previousBo, this`previousFb
    {
      if Cached(m, fd) then
        contextCurrent == contextCurrent0 && bo == bo0 && previousBo == previousBo0 && previousFb == previousFb0
      else
        && contextCurrent == (contextCurrent0 || (firstTime && env.makeCurrentOk))
        && bo == (if !SetUpFails(firstTime, env) && env.primeHandle.Some? then env.frontBo else bo0)
        && (previousBo, previousFb) ==
           (if ImportFailure(firstTime, env).None? then (env.frontBo, ToU32(fd)) else (previousBo0, previousFb0))
    }

    /** The lookup of Show: `buffers_[fd]`, default-constructed when missing, imported by
        makeBuffer when its fd is still -1. */
    method Obtain(fd: int, size: nat, info: StreamInfo, env: ImportEnv) returns (r: Outcome<DrmError>)
      requires Valid()
      requires IsU32(info.width) && IsU32(info.height) && IsU32(info.stride)
      modifies this`buffers, this`firstTime, this`bo, this`previousBo, this`previousFb,
               this`contextCurrent, this`calls
      ensures Valid()
      ensures buffers == old(buffers)[fd := Looked(old(buffers), fd, size, info, old(firstTime), env)]
      ensures firstTime == (Cached(old(buffers), fd) && old(firstTime))
      ensures LookedUp(old(buffers), fd, old(firstTime), env, old(contextCurrent), old(bo), old(previousBo), old(previousFb))
      ensures r == (match LookupFailure(old(buffers), fd, old(firstTime), env) case Some(e) => Fail(e) case None => Pass)
      ensures calls == old(calls) + LookupCalls(old(buffers), fd, info, old(firstTime), env, old(previousBo), old(previousFb))
      ensures r.Pass? ==> buffers[fd].fd == fd
    {
      if fd !in buffers {
        buffers := buffers[fd := EmptyBuffer];
      }
      r := Pass;
      if buffers[fd].fd == -1 {
        assert !Cached(old(buffers), fd);
        r := MakeBuffer(fd, size, info, env);
      } else {
        assert Cached(old(buffers), fd);
      }
    }

    /** The drawing part of Show: the entry's texture is drawn into the left and the right
        half of the screen, the buffers are swapped and the framebuffer is put on the overlay
        plane, letterboxed inside the preview rectangle; drmModeSetPlane failing throws. */
    method Present(buffer: Buffer, info: StreamInfo, setPlaneOk: bool) returns (r: Outcome<DrmError>)
      modifies this`calls
      ensures calls == old(calls) + PresentCalls(buffer, info, planeId, crtcId, Rect(x, y, width, height))
      ensures r == (if setPlaneOk then Pass else Fail(SetPlaneFailed))
    {
      calls := calls + [DrawQuad(Draw(buffer.texture, LeftHalf)), DrawQuad(Draw(buffer.texture, RightHalf)),
                        SwapBuffers,
                        SetPlane(SetPlaneArgs(planeId, crtcId, buffer.fbHandle, buffer.info, info,
                                              Rect(x, y, width, height)))];
      r := if setPlaneOk then Pass else Fail(SetPlaneFailed);
    }

    /** The end of a successful Show: the fd on screen until now, if any, goes back to the
        producer and `fd` is remembered in its place; the release protocol stays in step. */
    method Remember(fd: int)
      requires Valid() && fd in buffers
      modifies this`lastFd, this`shown, this`released
      ensures lastFd == fd && shown == old(shown) + [fd]
      ensures released == old(released) + (if old(lastFd) >= 0 then [old(lastFd)] else [])
      ensures Valid()
    {
      ReleaseStep(shown, fd);
      if lastFd >= 0 {
        released := released + [lastFd];
      }
      lastFd := fd;
      shown := shown + [fd];
    }

    /** Reset: removes the framebuffer and deletes the texture of every entry, empties the
        cache, forgets the fd on screen without handing it back, releases the context and
        re-arms the lazy initialisation. */
    method Reset()
      requires Valid()
      modifies this`buffers, this`lastFd, this`firstTime, this`contextCurrent, this`calls,
               this`shown, this`releasedBeforeReset
      ensures Valid()
      ensures buffers == map[] && lastFd == -1 && firstTime && !contextCurrent
      ensures calls == old(calls) + ResetCalls(old(buffers), KeysAscending(old(buffers).Keys))
      ensures released == old(released) && shown == []
    {
      ReleaseEntries();
      buffers := map[];
      lastFd := -1;
      contextCurrent := false;
      firstTime := true;
      shown := [];
      releasedBeforeReset := released;
    }

    /** The loop of Reset over `buffers_`, in ascending fd order: drmModeRmFB and
        glDeleteTextures for every entry, default-constructed ones included. */
    method ReleaseEntries()
      modifies this`calls
      ensures calls == old(calls) + ResetCalls(buffers, KeysAscending(buffers.Keys))
    {
      ghost var m := buffers;
      ghost var keys := KeysAscending(m.Keys);
      KeysAscendingMembers(m.Keys);
      ghost var i := 0;
      while i < |keys|
        invariant 0 <= i <= |keys|
        invariant calls == old(calls) + ResetCalls(m, keys[..i])
      {
        assert keys[..i + 1][..i] == keys[..i];
        calls := calls + [RemoveFramebuffer(m[keys[i]].fbHandle), DeleteTexture(m[keys[i]].texture)];
        i := i + 1;
      }
      assert keys[..i] == keys;
    }
  }
}
