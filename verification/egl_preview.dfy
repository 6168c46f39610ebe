/** The X11/EGL preview back-end (EglPreview). Construction opens the X display, initialises
    EGL and makes the window. Show imports each of the two streams' dma-buf fds once, into a
    cache per stream, draws the first stream's texture into the left half of the window and
    the second's into the right half, swaps, and hands the previously shown fd of the FIRST
    stream back to the producer. Reset deletes the first stream's textures only. X11, EGL and
    GL answers are parameters; what the back-end asks of them is kept in a ghost trace. */
module EglPreviewModel {
  import opened Common
  import opened ColourSpaces
  import opened Yuv420
  import opened Geometry
  import opened Reclaim

  /** The preview options the back-end reads (`unsigned int` values). */
  datatype Options = Options(x: nat, y: nat, width: nat, height: nat, fullscreen: bool)

  /** Every `std::runtime_error` the back-end throws, by the call that failed. */
  datatype EglError =
    | OpenDisplayFailed | GetDisplayFailed | InitializeFailed
    | ChooseConfigFailed | GetConfigAttribFailed | CreateContextFailed | CreateSurfaceFailed
    | MakeCurrentFailed | ShaderFailed | ImportFailed

  /** What X11, EGL and GL answer during construction: whether each call succeeds, the
      size of the default screen and GL_MAX_TEXTURE_SIZE. */
  datatype Display = Display(openOk: bool, getDisplayOk: bool, initializeOk: bool,
                             screenWidth: int, screenHeight: int,
                             chooseConfigOk: bool, configAttribOk: bool, contextOk: bool,
                             surfaceOk: bool, maxTextureSize: int)

  /** A cache entry. The default constructor sets only fd (to -1); the other members, left
      uninitialised in C++, are 0 here. */
  datatype Buffer = Buffer(fd: int, size: nat, info: StreamInfo, texture: nat)

  const EmptyBuffer := Buffer(-1, 0, DefaultInfo, 0)

  /** What one makeBuffer is answered: eglMakeCurrent and the shader build of the one-time
      set-up, eglCreateImageKHR, and the name glGenTextures hands out. */
  datatype ImportEnv = ImportEnv(makeCurrentOk: bool, shadersOk: bool, imageOk: bool, texture: nat)

  /** A call the back-end makes to EGL or GL, with what it is made from. */
  datatype Call =
    | CreateImage(image: ImportArgs)   // eglCreateImageKHR
    | DrawQuad(draw: Draw)             // the mesh drawn with a texture and a viewport
    | SwapBuffers                      // eglSwapBuffers
    | DeleteTexture(texture: nat)      // glDeleteTextures

  /** The failures of window creation, in the order makeWindow meets them. */
  function WindowFailure(d: Display): (e: Option<EglError>)
    ensures e.None? <==> d.chooseConfigOk && d.configAttribOk && d.contextOk && d.surfaceOk
    ensures e.Some? ==> e.value in {ChooseConfigFailed, GetConfigAttribFailed, CreateContextFailed, CreateSurfaceFailed}
  {
    if !d.chooseConfigOk then Some(ChooseConfigFailed)
    else if !d.configAttribOk then Some(GetConfigAttribFailed)
    else if !d.contextOk then Some(CreateContextFailed)
    else if !d.surfaceOk then Some(CreateSurfaceFailed)
    else None
  }

  /** The one-time set-up of makeBuffer throws: eglMakeCurrent or the shader build fails. */
  predicate SetUpFails(firstTime: bool, env: ImportEnv)
  {
    firstTime && !(env.makeCurrentOk && env.shadersOk)
  }

  /** The exception one makeBuffer throws, if any. */
  function ImportFailure(firstTime: bool, env: ImportEnv): (e: Option<EglError>)
    ensures e.None? <==> !SetUpFails(firstTime, env) && env.imageOk
    ensures !firstTime ==> e == (if env.imageOk then None else Some(ImportFailed))
  {
    if firstTime && !env.makeCurrentOk then Some(MakeCurrentFailed)
    else if firstTime && !env.shadersOk then Some(ShaderFailed)
    else if !env.imageOk then Some(ImportFailed)
    else None
  }

  /** The image request of makeBuffer: the fd's 4:2:0 planes, with the colour hints
      get_colour_space_info derives from the stream's colour space. */
  function ImageArgs(fd: int, info: StreamInfo): ImportArgs
  {
    var hints := EglColourInfo(info.colourSpace);
    ImportArgs(info, fd, hints.encoding, hints.range)
  }

  /** The calls of one makeBuffer, up to the step that throws. */
  function MakeBufferCalls(firstTime: bool, fd: int, info: StreamInfo, env: ImportEnv): seq<Call>
  {
    if SetUpFails(firstTime, env) then [] else [CreateImage(ImageArgs(fd, info))]
  }

  /** What makeBuffer asks for, whatever step fails: an EGL image exactly when the one-time
      set-up passed, always of this fd and this stream, and with the hints of its colour
      space: BT.709 exactly for Rec709, full range exactly for Jpeg. The attribute list it
      stands for lays out the three planes of the fd as the DRM framebuffer does. */
  lemma {:induction false} ImageRequests(firstTime: bool, fd: int, info: StreamInfo, env: ImportEnv, p: nat)
    requires IsU32(info.width) && IsU32(info.height) && IsU32(info.stride)
    requires p < 3
    ensures var c := MakeBufferCalls(firstTime, fd, info, env);
      && ((exists i :: 0 <= i < |c| && c[i].CreateImage?) <==> !SetUpFails(firstTime, env))
      && forall i :: 0 <= i < |c| ==>
           && c[i].CreateImage? && c[i].image.fd == fd && c[i].image.info == info
           && (c[i].image.encoding == ItuRec709 <==> info.colourSpace == Some(Rec709))
           && (c[i].image.range == YuvFullRange <==> info.colourSpace == Some(Jpeg))
           && var attrs := ImportAttribs(info, fd, c[i].image.encoding, c[i].image.range);
              var l := Layout(info.stride, info.height);
              && Lookup(attrs, PlaneFd(p)) == Some(Int(fd))
              && Lookup(attrs, PlaneOffset(p)) == Some(Int(AsEglInt(l.offsets[p])))
              && Lookup(attrs, PlanePitch(p)) == Some(Int(AsEglInt(l.pitches[p])))
  {
    var c := MakeBufferCalls(firstTime, fd, info, env);
    if !SetUpFails(firstTime, env) {
      assert c[0].CreateImage?;
      ImportMatchesLayout(info, fd, c[0].image.encoding, c[0].image.range, p);
    }
  }

  /** `first_time_` after a run of imports, each answered by the next element of `envs`. */
  function FlagAfter(firstTime: bool, envs: seq<ImportEnv>): bool
    decreases |envs|
  {
    if envs == [] then firstTime else FlagAfter(SetUpFails(firstTime, envs[0]), envs[1..])
  }

  /** The flag is cleared only once the set-up has succeeded, so a failed set-up is retried
      by the next import: after a run of imports from a fresh (or Reset) preview the flag is
      still set exactly when every set-up in the run failed, and once clear it stays clear. */
  lemma {:induction false} SetUpRetried(envs: seq<ImportEnv>)
    ensures FlagAfter(true, envs) <==>
            forall i :: 0 <= i < |envs| ==> !(envs[i].makeCurrentOk && envs[i].shadersOk)
    ensures !FlagAfter(false, envs)
    decreases |envs|
  {
    if envs != [] {
      SetUpRetried(envs[1..]);
      assert forall i :: 1 <= i < |envs| ==> envs[i] == envs[1..][i - 1];
      if envs[0].makeCurrentOk && envs[0].shadersOk {
        assert FlagAfter(true, envs) == FlagAfter(false, envs[1..]);
      }
    }
  }

  /** The entry makeBuffer leaves behind: fd, size and info are set once the set-up passed,
      the texture once the image was created. */
  function Filled(e: Buffer, fd: int, size: nat, info: StreamInfo, env: ImportEnv): Buffer
  {
    var b := e.(fd := fd, size := size, info := info);
    if env.imageOk then b.(texture := env.texture) else b
  }

  /** `m[fd]` exists and has been imported (at least up to its fd). */
  predicate Cached(m: map<int, Buffer>, fd: int)
  {
    fd in m && m[fd].fd != -1
  }

  /** `m[fd]` as `operator[]` returns it: default-constructed when missing. */
  function EntryOf(m: map<int, Buffer>, fd: int): Buffer
  {
    if fd in m then m[fd] else EmptyBuffer
  }

  /** The entry for `fd` after Show's lookup in `m`: kept when cached, otherwise as
      makeBuffer leaves it. */
  function Looked(m: map<int, Buffer>, fd: int, size: nat, info: StreamInfo, firstTime: bool,
                  env: ImportEnv): Buffer
  {
    var e := EntryOf(m, fd);
    if Cached(m, fd) || SetUpFails(firstTime, env) then e else Filled(e, fd, size, info, env)
  }

  /** The exception Show's lookup of `fd` in `m` throws, if any. */
  function LookupFailure(m: map<int, Buffer>, fd: int, firstTime: bool, env: ImportEnv): Option<EglError>
  {
    if Cached(m, fd) then None else ImportFailure(firstTime, env)
  }

  /** `first_time_` after Show's lookup of `fd` in `m`. */
  function LookupFlag(m: map<int, Buffer>, fd: int, firstTime: bool, env: ImportEnv): bool
  {
    if Cached(m, fd) then firstTime else SetUpFails(firstTime, env)
  }

  /** The calls of Show's lookup of `fd` in `m`. */
  function LookupCalls(m: map<int, Buffer>, fd: int, info: StreamInfo, firstTime: bool, env: ImportEnv): seq<Call>
  {
    if Cached(m, fd) then [] else MakeBufferCalls(firstTime, fd, info, env)
  }

  /** The calls of Show's two lookups: `fd` in `m`, then, unless that threw, `fd2` in `m2`. */
  function PairCalls(m: map<int, Buffer>, m2: map<int, Buffer>, fd: int, info: StreamInfo,
                     fd2: int, info2: StreamInfo, firstTime: bool, env: ImportEnv, env2: ImportEnv): seq<Call>
  {
    LookupCalls(m, fd, info, firstTime, env) +
    (if LookupFailure(m, fd, firstTime, env).Some? then []
     else LookupCalls(m2, fd2, info2, LookupFlag(m, fd, firstTime, env), env2))
  }

  /** The drawing of Show: the first stream's texture into the left half of the window,
      the second's into the right half, then the swap. */
  function PresentCalls(texture: nat, texture2: nat): seq<Call>
  {
    [DrawQuad(Draw(texture, LeftHalf)), DrawQuad(Draw(texture2, RightHalf)), SwapBuffers]
  }

  /** A successful Show asks for at most one image per stream, all before drawing, and
      then draws each texture into its own half of the window and swaps exactly once, as
      its last call. */
  lemma ShowSwapsOnce(m: map<int, Buffer>, m2: map<int, Buffer>, fd: int, info: StreamInfo,
                      fd2: int, info2: StreamInfo, firstTime: bool,
                      env: ImportEnv, env2: ImportEnv, texture: nat, texture2: nat)
    ensures var pre := PairCalls(m, m2, fd, info, fd2, info2, firstTime, env, env2);
            var c := pre + PresentCalls(texture, texture2);
      && |pre| <= 2
      && (forall i :: 0 <= i < |pre| ==> c[i].CreateImage?)
      && c[|pre|] == DrawQuad(Draw(texture, LeftHalf))
      && c[|pre| + 1] == DrawQuad(Draw(texture2, RightHalf))
      && (forall i :: 0 <= i < |c| ==> (c[i] == SwapBuffers <==> i == |c| - 1))
  {
  }

  /** Every cache entry is either default (fd -1) or holds the fd it is filed under. */
  predicate KeyedEntries(m: map<int, Buffer>)
  {
    forall k :: k in m ==> m[k].fd == -1 || m[k].fd == k
  }

  /** The calls of Reset's walk over the entries `keys` of `m`, in that order: one texture
      deleted per entry. */
  ghost function DeleteCalls(m: map<int, Buffer>, keys: seq<int>): (c: seq<Call>)
    ensures |c| == |keys|
  {
    if keys == [] then []
    else DeleteCalls(m, keys[..|keys| - 1]) + [DeleteTexture(EntryOf(m, keys[|keys| - 1]).texture)]
  }

  /** Position `i` of the walk deletes the texture of the entry filed under `keys[i]`. */
  lemma {:induction false} DeletedAt(m: map<int, Buffer>, keys: seq<int>, i: int)
    requires 0 <= i < |keys| && keys[i] in m
    ensures DeleteCalls(m, keys)[i] == DeleteTexture(m[keys[i]].texture)
    decreases |keys|
  {
    if i < |keys| - 1 {
      DeletedAt(m, keys[..|keys| - 1], i);
    }
  }

  /** Reset's walk over the first cache deletes every entry's texture, one call per entry,
      and nothing else. */
  lemma EveryTextureDeleted(m: map<int, Buffer>)
    ensures var c := DeleteCalls(m, KeysAscending(m.Keys));
      && |c| == |m|
      && (forall k :: k in m ==> DeleteTexture(m[k].texture) in c)
      && (forall i :: 0 <= i < |c| ==> exists k :: k in m && c[i] == DeleteTexture(m[k].texture))
  {
    var keys := KeysAscending(m.Keys);
    var c := DeleteCalls(m, keys);
    KeysAscendingMembers(m.Keys);
    forall k | k in m
      ensures DeleteTexture(m[k].texture) in c
    {
      var j :| 0 <= j < |keys| && keys[j] == k;
      DeletedAt(m, keys, j);
    }
    forall i | 0 <= i < |c|
      ensures exists k :: k in m && c[i] == DeleteTexture(m[k].texture)
    {
      DeletedAt(m, keys, i);
    }
  }

  class EglPreview {
    // The window rectangle (`int` members).
    var x: int
    var y: int
    var width: int
    var height: int
    var maxImageWidth: nat
    var maxImageHeight: nat

    // Frame state: one cache per stream.
    var buffers: map<int, Buffer>
    var buffers2: map<int, Buffer>
    var lastFd: int
    var lastFd2: int
    var firstTime: bool

    /** Whether the EGL context is current in this thread. */
    ghost var contextCurrent: bool
    /** The calls made to EGL and GL since construction, in order. */
    ghost var calls: seq<Call>
    /** The first stream's fds shown successfully since construction or the last Reset. */
    ghost var shown: seq<int>
    /** Arguments of done_callback_, ever. */
    ghost var released: seq<int>
    /** `released` as it stood at the last Reset. */
    ghost var releasedBeforeReset: seq<int>

    /** The release protocol and the shape of the caches:
        - an entry of either cache is default-constructed or keyed by its own fd;
        - `last_fd_` is the first stream's fd shown last since the last Reset (-1 if none),
          and the done callback has been given exactly the fds ReleasesOf describes for
          those Shows, and every one of them still has its entry;
        - `last_fd2_` is never set: the second stream's fds are never handed back. */
    ghost predicate Valid()
      reads this`buffers, this`buffers2, this`lastFd, this`lastFd2, this`shown, this`released,
            this`releasedBeforeReset
    {
      && KeyedEntries(buffers)
      && KeyedEntries(buffers2)
      && (forall i :: 0 <= i < |shown| ==> shown[i] in buffers)
      && lastFd == LastShown(shown)
      && released == releasedBeforeReset + ReleasesOf(shown)
      && lastFd2 == -1
    }

    /** The state the member initialisers and the first lines of the constructor set up;
        the window rectangle is read from the options into `int` members. */
    constructor (options: Options)
      requires IsU32(options.x) && IsU32(options.y) && IsU32(options.width) && IsU32(options.height)
      ensures x == AsEglInt(options.x) && y == AsEglInt(options.y)
      ensures width == AsEglInt(options.width) && height == AsEglInt(options.height)
      ensures buffers == map[] && buffers2 == map[] && lastFd == -1 && lastFd2 == -1 && firstTime
      ensures shown == [] && released == [] && releasedBeforeReset == []
      ensures !contextCurrent && calls == []
    {
      x, y := AsEglInt(options.x), AsEglInt(options.y);
      width, height := AsEglInt(options.width), AsEglInt(options.height);
      maxImageWidth, maxImageHeight := 0, 0;
      buffers, buffers2 := map[], map[];
      lastFd, lastFd2, firstTime := -1, -1, true;
      contextCurrent, calls := false, [];
      shown, released, releasedBeforeReset := [], [], [];
    }

    /** The EglPreview constructor: XOpenDisplay, eglGetDisplay and eglInitialize, each
        throwing when it fails, then makeWindow. */
    static method Create(options: Options, d: Display) returns (r: Result<EglPreview, EglError>)
      requires IsU32(options.x) && IsU32(options.y) && IsU32(options.width) && IsU32(options.height)
      ensures !d.openOk ==> r == Err(OpenDisplayFailed)
      ensures d.openOk && !d.getDisplayOk ==> r == Err(GetDisplayFailed)
      ensures d.openOk && d.getDisplayOk && !d.initializeOk ==> r == Err(InitializeFailed)
      ensures d.openOk && d.getDisplayOk && d.initializeOk && WindowFailure(d).Some? ==>
                r == Err(WindowFailure(d).value)
      ensures r.Ok? <==> d.openOk && d.getDisplayOk && d.initializeOk && WindowFailure(d).None?
      ensures r.Ok? ==> fresh(r.value) && r.value.Valid()
      ensures r.Ok? ==> r.value.buffers == map[] && r.value.buffers2 == map[] && r.value.shown == [] && r.value.calls == []
      ensures r.Ok? ==> r.value.released == [] && r.value.releasedBeforeReset == []
      ensures r.Ok? ==> r.value.firstTime && !r.value.contextCurrent
      ensures r.Ok? ==>
                Rect(r.value.x, r.value.y, r.value.width, r.value.height) ==
                EglWindowGeometry(options.fullscreen, AsEglInt(options.x), AsEglInt(options.y),
                                  AsEglInt(options.width), AsEglInt(options.height),
                                  d.screenWidth, d.screenHeight)
      ensures r.Ok? ==> r.value.maxImageWidth == ToU32(d.maxTextureSize) == r.value.maxImageHeight
    {
      if !d.openOk {
        return Err(OpenDisplayFailed);
      }
      if !d.getDisplayOk {
        return Err(GetDisplayFailed);
      }
      if !d.initializeOk {
        return Err(InitializeFailed);
      }
      var p := new EglPreview(options);
      var o := p.MakeWindow(d, options.fullscreen);
      if o.Fail? {
        return Err(o.error);
      }
      r := Ok(p);
    }

    /** makeWindow: a zero width or height becomes 1024x768; full screen, or a rectangle
        that overruns the screen, becomes the whole screen; then the config, its visual, the
        context and the window surface, each throwing when it fails; the largest image is
        GL_MAX_TEXTURE_SIZE, as `unsigned int`, in both directions. */
    method MakeWindow(d: Display, fullscreen: bool) returns (o: Outcome<EglError>)
      modifies this`x, this`y, this`width, this`height, this`maxImageWidth, this`maxImageHeight
      ensures Rect(x, y, width, height) ==
              EglWindowGeometry(fullscreen, old(x), old(y), old(width), old(height),
                                d.screenWidth, d.screenHeight)
      ensures o == (match WindowFailure(d) case Some(e) => Fail(e) case None => Pass)
      ensures o.Pass? ==> maxImageWidth == ToU32(d.maxTextureSize) && maxImageHeight == maxImageWidth
    {
      if width == 0 || height == 0 {
        width, height := 1024, 768;
      }
      if fullscreen || x + width > d.screenWidth || y + height > d.screenHeight {
        x, y := 0, 0;
        width, height := d.screenWidth, d.screenHeight;
      }
      var e := WindowFailure(d);
      if e.Some? {
        return Fail(e.value);
      }
      maxImageWidth := ToU32(d.maxTextureSize);
      maxImageHeight := maxImageWidth;
      o := Pass;
    }

    /** makeBuffer: the first time, make the context current and build the shaders (either
        failing throws, and the flag stays set); then record fd, size and info in the entry,
        ask for the EGL image (its failure throws) and give the entry a new texture. */
    method MakeBuffer(entry: Buffer, fd: int, size: nat, info: StreamInfo, env: ImportEnv)
      returns (r: Outcome<EglError>, filled: Buffer)
      modifies this`firstTime, this`contextCurrent, this`calls
      ensures r == (match ImportFailure(old(firstTime), env) case Some(e) => Fail(e) case None => Pass)
      ensures firstTime == SetUpFails(old(firstTime), env)
      ensures contextCurrent == (old(contextCurrent) || (old(firstTime) && env.makeCurrentOk))
      ensures calls == old(calls) + MakeBufferCalls(old(firstTime), fd, info, env)
      ensures filled == if SetUpFails(old(firstTime), env) then entry else Filled(entry, fd, size, info, env)
    {
      filled := entry;
      if firstTime {
        if !env.makeCurrentOk {
          return Fail(MakeCurrentFailed), filled;
        }
        contextCurrent := true;
        if !env.shadersOk {
          return Fail(ShaderFailed), filled;
        }
        firstTime := false;
      }
      filled := filled.(fd := fd, size := size, info := info);
      var hints := EglColourInfo(info.colourSpace);
      calls := calls + [CreateImage(ImportArgs(info, fd, hints.encoding, hints.range))];
      if !env.imageOk {
        return Fail(ImportFailed), filled;
      }
      filled := filled.(texture := env.texture);
      r := Pass;
    }

    /** The lookup of Show in one cache: `m[fd]`, default-constructed when missing, handed
        to makeBuffer when its fd is still -1. A cached entry is drawn again as it is. */
    method Obtain(m: map<int, Buffer>, fd: int, size: nat, info: StreamInfo, env: ImportEnv)
      returns (r: Outcome<EglError>, m2: map<int, Buffer>)
      requires KeyedEntries(m)
      modifies this`firstTime, this`contextCurrent, this`calls
      ensures m2 == m[fd := Looked(m, fd, size, info, old(firstTime), env)]
      ensures KeyedEntries(m2)
      ensures r == (match LookupFailure(m, fd, old(firstTime), env) case Some(e) => Fail(e) case None => Pass)
      ensures r.Pass? ==> m2[fd].fd == fd
      ensures firstTime == LookupFlag(m, fd, old(firstTime), env)
      ensures calls == old(calls) + LookupCalls(m, fd, info, old(firstTime), env)
      ensures Cached(m, fd) ==> m2 == m && contextCurrent == old(contextCurrent)
    {
      var entry := EntryOf(m, fd);
      r := Pass;
      if entry.fd == -1 {
        r, entry := MakeBuffer(entry, fd, size, info, env);
      }
      m2 := m[fd := entry];
    }

    /** Show: look `fd` up in the first cache and `fd2` in the second, importing each whose
        entry is still default; draw the first texture into the left half of the window and
        the second into the right half; swap; then hand the first stream's previous fd back
        and remember `fd`. The second stream's fds are neither remembered nor handed back. */
    method Show(fd: int, size: nat, info: StreamInfo, fd2: int, size2: nat, info2: StreamInfo,
                env: ImportEnv, env2: ImportEnv) returns (r: Outcome<EglError>)
      requires Valid()
      modifies this`buffers, this`buffers2, this`firstTime, this`contextCurrent, this`calls,
               this`lastFd, this`shown, this`released
      ensures Valid()
      ensures var ft := LookupFlag(old(buffers), fd, old(firstTime), env);
              var f1 := LookupFailure(old(buffers), fd, old(firstTime), env);
              var f2 := LookupFailure(old(buffers2), fd2, ft, env2);
        && r == (if f1.Some? then Fail(f1.value) else if f2.Some? then Fail(f2.value) else Pass)
        && buffers == old(buffers)[fd := Looked(old(buffers), fd, size, info, old(firstTime), env)]
        && buffers2 == (if f1.Some? then old(buffers2)
                        else old(buffers2)[fd2 := Looked(old(buffers2), fd2, size2, info2, ft, env2)])
        && firstTime == (if f1.Some? then ft else LookupFlag(old(buffers2), fd2, ft, env2))
      ensures calls == old(calls) + PairCalls(old(buffers), old(buffers2), fd, info, fd2, info2,
                                              old(firstTime), env, env2) +
                       (if r.Pass? then PresentCalls(buffers[fd].texture, buffers2[fd2].texture) else [])
      ensures old(Cached(buffers, fd)) && old(Cached(buffers2, fd2)) ==>
                r == Pass && buffers == old(buffers) && buffers2 == old(buffers2) &&
                calls == old(calls) + PresentCalls(buffers[fd].texture, buffers2[fd2].texture)
      ensures r.Pass? ==> buffers[fd].fd == fd && buffers2[fd2].fd == fd2
      ensures r.Pass? ==> lastFd == fd && shown == old(shown) + [fd]
      ensures r.Pass? ==> released == old(released) + (if old(lastFd) >= 0 then [old(lastFd)] else [])
      ensures r.Fail? ==> lastFd == old(lastFd) && shown == old(shown) && released == old(released)
    {
      r := ImportPair(fd, size, info, fd2, size2, info2, env, env2);
      if r.Fail? {
        return;
      }
      calls := calls + PresentCalls(buffers[fd].texture, buffers2[fd2].texture);
      Remember(fd);
    }

    /** The two lookups of Show, the first stream's before the second's; an exception in the
        first leaves the second cache alone. */
    method ImportPair(fd: int, size: nat, info: StreamInfo, fd2: int, size2: nat, info2: StreamInfo,
                      env: ImportEnv, env2: ImportEnv) returns (r: Outcome<EglError>)
      requires KeyedEntries(buffers) && KeyedEntries(buffers2)
      modifies this`buffers, this`buffers2, this`firstTime, this`contextCurrent, this`calls
      ensures KeyedEntries(buffers) && KeyedEntries(buffers2)
      ensures var ft := LookupFlag(old(buffers), fd, old(firstTime), env);
              var f1 := LookupFailure(old(buffers), fd, old(firstTime), env);
              var f2 := LookupFailure(old(buffers2), fd2, ft, env2);
        && r == (if f1.Some? then Fail(f1.value) else if f2.Some? then Fail(f2.value) else Pass)
        && buffers == old(buffers)[fd := Looked(old(buffers), fd, size, info, old(firstTime), env)]
        && buffers2 == (if f1.Some? then old(buffers2)
                        else old(buffers2)[fd2 := Looked(old(buffers2), fd2, size2, info2, ft, env2)])
        && firstTime == (if f1.Some? then ft else LookupFlag(old(buffers2), fd2, ft, env2))
      ensures calls == old(calls) + PairCalls(old(buffers), old(buffers2), fd, info, fd2, info2,
                                              old(firstTime), env, env2)
      ensures r.Pass? ==> buffers[fd].fd == fd && buffers2[fd2].fd == fd2
    {
      var m;
      r, m := Obtain(buffers, fd, size, info, env);
      buffers := m;
      if r.Fail? {
        return;
      }
      r, m := Obtain(buffers2, fd2, size2, info2, env2);
      buffers2 := m;
    }

    /** The end of a successful Show: the first stream's fd on screen until now, if any,
        goes back to the producer and `fd` is remembered in its place. */
    method Remember(fd: int)
      requires Valid() && fd in buffers
      modifies this`lastFd, this`shown, this`released
      ensures lastFd == fd && shown == old(shown) + [fd]
      ensures released == old(released) + (if old(lastFd) >= 0 then [old(lastFd)] else [])
      ensures Valid()
    {
      ReleaseStep(shown, fd);
      if lastFd >= 0 {
        released := released + [lastFd];
      }
      lastFd := fd;
      shown := shown + [fd];
    }

    /** Reset: deletes the texture of every entry of the first cache and empties it, forgets
        the fd on screen without handing it back, releases the context and re-arms the
        lazy initialisation. The second cache and its textures are kept. */
    method Reset()
      requires Valid()
      modifies this`buffers, this`lastFd, this`firstTime, this`contextCurrent, this`calls,
               this`shown, this`releasedBeforeReset
      ensures Valid()
      ensures buffers == map[] && lastFd == -1 && firstTime && !contextCurrent
      ensures calls == old(calls) + DeleteCalls(old(buffers), KeysAscending(old(buffers).Keys))
      ensures buffers2 == old(buffers2) && lastFd2 == old(lastFd2)
      ensures released == old(released) && shown == []
    {
      DeleteTextures();
      buffers := map[];
      lastFd := -1;
      contextCurrent := false;
      firstTime := true;
      shown := [];
      releasedBeforeReset := released;
    }

    /** The loop of Reset over `buffers_`, in ascending fd order: glDeleteTextures for every
        entry, default-constructed ones included. */
    method DeleteTextures()
      modifies this`calls
      ensures calls == old(calls) + DeleteCalls(buffers, KeysAscending(buffers.Keys))
    {
      ghost var m := buffers;
      ghost var keys := KeysAscending(m.Keys);
      KeysAscendingMembers(m.Keys);
      ghost var i := 0;
      while i < |keys|
        invariant 0 <= i <= |keys|
        invariant calls == old(calls) + DeleteCalls(m, keys[..i])
      {
        assert keys[..i + 1][..i] == keys[..i];
        calls := calls + [DeleteTexture(m[keys[i]].texture)];
        i := i + 1;
      }
      assert keys[..i] == keys;
    }
  }
}
