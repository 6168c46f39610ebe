# libcamera-apps (dual camera) preview back-ends in Dafny

This project models the two preview back-ends of the dual-camera fork of libcamera-apps.

- **`DrmPreview`** is the DRM/KMS overlay-plane back-end, in `preview/drm_preview.cpp`.
- **`EglPreview`** is the X11/EGL window back-end, in `preview/egl_preview.cpp`.

Each back-end receives frames as dma-buf file descriptors. It imports each fd once into a cache keyed by the fd: an EGL image bound to a GL texture, plus a DRM framebuffer on the DRM path. It then draws the texture with a mesh into the two 960x1080 halves of the screen. Finally it hands the previously shown fd back to the producer through `done_callback_`, one frame late.

Both classes are Dafny `class`es whose fields are the C++ members:

- `buffers_` (and `buffers2_`) become `map<int, Buffer>` fields.
- The file-scope globals `bo`, `previous_bo` and `previous_fb` of the DRM back-end become fields.
- `last_fd_` and `first_time_` are fields as well.

Every kernel, GBM, EGL, GL or X11 call is a parameter saying whether it succeeds and what it returns. These are the records `Device`, `Display`, `ImportEnv` and `GbmEgl`. Each `throw std::runtime_error` becomes an `Outcome`/`Result` error value, and the method returns at that point with the state as far as it got.

What the back-ends ask of those libraries is recorded, in order, in a ghost trace `calls`. The traced calls are:

- the colour-property writes;
- `drmModeAddFB2`, `eglCreateImageKHR` and `drmModeRmFB`;
- `gbm_surface_release_buffer`;
- the mesh draws with their texture and viewport;
- `eglSwapBuffers`, `drmModeSetPlane` and `glDeleteTextures`.

The producer's release callback is recorded in a ghost sequence `released`.

The release protocol is a specification module (`Reclaim`):

- `ReleasesOf(shown)` is the callback sequence that a run of successful Shows must produce.
- Each class keeps `Valid()`: `released` is the releases since the last Reset appended to those before it, and `last_fd_` is the fd shown last.

The pure parts are functions with lemmas about them:

- the 4:2:0 plane layout and the EGL import attribute list (`Yuv420`);
- the aspect fit of the overlay plane and the window and screen fallbacks (`Geometry`);
- the colour-space classification of both back-ends (`ColourSpaces`);
- the first-match searches of the DRM resolver (`DrmSearch`), each a loop method proved against a function.

Unsigned 32-bit arithmetic is written out (`Mul32`, `Add32`, `Sub32`, `ToU32`, `AsEglInt`).

Notable behaviour of the code, as modelled:

- **The fd on screen is not compared with the new one.** Showing the same fd twice hands it back while it is still displayed (`Reclaim.SameFdTwice`).
- **Reset never releases the pending fd.** It forgets `last_fd_` without calling `done_callback_`.
- **Only the first EGL stream is released.** The EGL back-end hands back only the first stream's fds. The release of the second stream is commented out, so `last_fd2_` stays -1. Its cache `buffers2_` survives Reset.
- **When the one-time flag is cleared differs.** The DRM back-end clears `first_time_` before `eglMakeCurrent`, so a failed set-up is never retried. The EGL back-end clears it only after the set-up succeeded (`EglPreviewModel.SetUpRetried`).
- **The colour hints differ between back-ends.** The DRM back-end imports every fd with the fixed hints BT.601 / narrow range. It uses the stream's colour space only for the plane properties. The EGL back-end derives the hints from the colour space.
- **`previous_fb` holds an fd.** The DRM back-end stores the fd, not the framebuffer handle, into `previous_fb`. The next import passes that value to `drmModeRmFB`.
- **The previous buffer goes back early.** That release happens at the end of makeBuffer, before `drmModeSetPlane` puts the new framebuffer on screen.
- **The EGL window test checks only the right and bottom edges.** An option of 2^31 or more becomes a negative `int`, and a negative position or size is kept (`Geometry.EglWindowNegativeKept`).
- **A failed import is not retried.** `buffer.fd` is set before the import calls, so after a failed import the entry counts as cached.
- **The DRM colour default is BT.601, limited range.** `get_colour_space_info` starts from "601" / "limited" and changes only the range for Jpeg and only the encoding for Rec709. Every other colour space, and a missing one, keeps the default and is logged (`ColourSpaces.DrmColourTable`).

## Model

| member | source | states |
|---|---|---|
| Common.Mul32 | preview/drm_preview.cpp:617-618 | `uint32_t` product: below 2^32, and exact when the true product fits |
| Common.Add32 | preview/drm_preview.cpp:618 | `uint32_t` sum: below 2^32, and exact when the true sum fits |
| Common.Sub32 | preview/drm_preview.cpp:729-731 | `unsigned int` difference: exact when non-negative, otherwise wrapped by 2^32 |
| Common.ToU32 | preview/drm_preview.cpp:715 | conversion of an `int` to `uint32_t`: in range, identity on representable values |
| Common.AsEglInt | preview/egl_preview.cpp:455-466 | `static_cast<EGLint>` of a 32-bit value: a signed 32-bit value congruent to it, equal to it below 2^31 |
| ColourSpaces.DrmColourInfo | preview/drm_preview.cpp:463-479 | "709" exactly for Rec709 (else "601"), "full" exactly for Jpeg (else "limited"), logged exactly for tags other than the three presets |
| ColourSpaces.DrmColourTable | preview/drm_preview.cpp:463-479 | the full table: Jpeg, Smpte170m, Rec709 and the default for every other tag or none |
| ColourSpaces.EglColourInfo | preview/egl_preview.cpp:417-430 | REC709 exactly for Rec709, full range exactly for Jpeg, logged exactly for unknown tags |
| ColourSpaces.BackendsAgree | preview/egl_preview.cpp:417-430 | the EGL hints name the same encoding and range as the DRM property names, for every colour space |
| Yuv420.Layout | preview/drm_preview.cpp:617-619 | four offsets and pitches, all below 2^32, plane 0 at offset 0 and slot 3 empty |
| Yuv420.LayoutContiguous | preview/drm_preview.cpp:617-619 | without wrap: offsets [0, stride*height, stride*height+(stride/2)*(height/2)], pitches [stride, stride/2, stride/2], planes back to back, the image within 1.5 luma planes |
| Yuv420.AddFb2 | preview/drm_preview.cpp:617-627 | the AddFB2 request uses the same bo handle for all three planes and the 4:2:0 layout's offsets and pitches |
| Yuv420.ImportAttribs | preview/egl_preview.cpp:454-469 | fourteen attributes, each named once, every plane fd attribute for one of the three planes and carrying the buffer's fd |
| Yuv420.ImportHeader | preview/egl_preview.cpp:454-469 | the import attributes carry the stream width and height, the YUV420 fourcc and the two hints given |
| Yuv420.ImportMatchesLayout | preview/egl_preview.cpp:454-466 | each of the three planes reads the same fd at the layout's offset with the layout's pitch |
| Yuv420.FramebufferMatchesImport | preview/drm_preview.cpp:617-689 | the AddFB2 request and the EGL attribute list describe the same planes and fourcc |
| Geometry.AspectFit | preview/drm_preview.cpp:726-731 | the letterbox rectangle of the plane, every component an `unsigned int` |
| Geometry.AspectFitLetterboxes | preview/drm_preview.cpp:726-731 | without wrap: inside the target, fills one dimension, slack centred in the other, aspect ratio kept up to one rounding |
| Geometry.WidthLimited | preview/drm_preview.cpp:728-729 | a wide source: the scaled height stays within the target |
| Geometry.HeightLimited | preview/drm_preview.cpp:730-731 | any other source: the scaled width stays within the target |
| Geometry.AspectFitExample | preview/drm_preview.cpp:726-731 | 640x480 on 1920x1080 gives 1440x1080 at x offset 240 |
| Geometry.DrmScreenFit | preview/drm_preview.cpp:445-451 | the final DRM rectangle is either the whole screen or the requested one |
| Geometry.DrmScreenFitFits | preview/drm_preview.cpp:445-451 | without wrap: the requested rectangle is kept exactly when non-empty, fitting and not full screen; the result fits the screen |
| Geometry.DrmScreenFitWraps | preview/drm_preview.cpp:445-446 | the overrun test in `unsigned int` wraps: an x offset near 2^32 passes it |
| Geometry.EglWindowGeometry | preview/egl_preview.cpp:324-335 | the window's right and bottom edges never pass the screen's; with a non-negative request and screen, the position and size are non-negative |
| Geometry.EglWindowNegativeKept | preview/egl_preview.cpp:324-335 | a negative position or size passes the fallback test and is kept |
| Geometry.EglWindowGeometryCases | preview/egl_preview.cpp:324-335 | 1024x768 for a zero size, then the screen when full screen or overrunning, otherwise the (defaulted) request |
| Geometry.SplitViewports | preview/egl_preview.cpp:502-510 | the two viewports are disjoint and together cover 1920x1080 |
| Reclaim.ReleaseStep | preview/drm_preview.cpp:748-750 | one more Show releases exactly the previously shown fd when it is >= 0, and remembers the new one |
| Reclaim.ReleasesAreEarlierShows | preview/drm_preview.cpp:748-750 | the releases are the non-negative fds of every Show but the latest, in order |
| Reclaim.ReleasedOncePerShow | preview/drm_preview.cpp:748-750 | releases plus the fd on screen are, as a multiset, exactly the non-negative fds shown |
| Reclaim.SameFdTwice | preview/drm_preview.cpp:748-750 | showing the fd on screen again releases it while it stays on screen |
| Reclaim.KeysAscendingMembers | preview/drm_preview.cpp:755-758 | the `std::map` walk visits every key once and nothing else |
| Reclaim.KeysAscendingSorted | preview/drm_preview.cpp:755-758 | the walk visits the keys in strictly increasing order |
| DrmSearch.FirstEligible | preview/drm_preview.cpp:205-209 | the first connector with a CRTC and a non-zero id, and no earlier one |
| DrmSearch.LastActive | preview/drm_preview.cpp:211-215 | the last connector with a CRTC, and no later one |
| DrmSearch.ScanConnectors | preview/drm_preview.cpp:185-224 | conId/crtcId from the first eligible connector (conId 0 when none), the screen size from the last lit one (unchanged when none) |
| DrmSearch.CrtcIndex | preview/drm_preview.cpp:227-242 | the smallest index holding the CRTC id, or -1 exactly when none does |
| Common.Pow2 | preview/drm_preview.cpp:381 | `1 << n` is at least 1 and even for n > 0 |
| Common.SingleBitMask | preview/drm_preview.cpp:381 | the mask `1 << k` passes the `possible_crtcs` test for index n exactly when n == k |
| DrmSearch.FirstSuitable | preview/drm_preview.cpp:375-405 | the first plane with bit crtcIdx in possible_crtcs and the fourcc in its formats, and no earlier one |
| DrmSearch.ChoosePlane | preview/drm_preview.cpp:375-405 | planeId_ becomes the first suitable plane's id, unchanged when there is none |
| DrmSearch.PrefixMatch | preview/drm_preview.cpp:375-405 | the first suitable plane of a prefix is the first of the whole list |
| Common.ContainsOccurs | preview/drm_preview.cpp:495-506 | the `strstr` match holds exactly when the needle occurs at some index of the name; the empty needle always matches |
| DrmSearch.FirstProperty | preview/drm_preview.cpp:488-500 | the first readable enum property whose name contains the wanted name, and no earlier one |
| DrmSearch.FirstEnum | preview/drm_preview.cpp:504-513 | the first enum entry whose name contains the value, and no earlier one |
| DrmSearch.PropertyChoice | preview/drm_preview.cpp:488-519 | only the first readable enum property whose name contains the wanted name is looked at: no such property exactly when none matches; no such value exactly when that property has no matching enum entry; otherwise it writes that property the value of its first enum entry whose name contains the value |
| DrmSearch.SetProperty | preview/drm_preview.cpp:481-526 | the loop finds what PropertyChoice describes; returns the set result for a write and -1 otherwise |
| DrmSearch.PropertyPrefix | preview/drm_preview.cpp:488-517 | a match in a prefix is the match of the whole property list |
| DrmSearch.EnumPrefix | preview/drm_preview.cpp:504-513 | a match in a prefix of the enum table is the match of the whole table |
| DrmPreviewModel.ImportFailure | preview/drm_preview.cpp:600-697 | makeBuffer succeeds exactly when set-up (first time only), handle, framebuffer and image all succeed; set-up errors only on the first import |
| DrmPreviewModel.FilledEntry | preview/drm_preview.cpp:610-698 | the entry gets fd, size and info whatever fails, and all handles when the import succeeds |
| DrmPreviewModel.ColourCalls | preview/drm_preview.cpp:528-534 | setup_colour_space makes two property searches, COLOR_ENCODING then COLOR_RANGE, for the names DrmColourInfo gives the stream's colour space |
| DrmPreviewModel.ColourWritesNamed | preview/drm_preview.cpp:488-534 | a colour write carries the value of an enum entry whose name contains the name DrmColourInfo chose (so "709" for Rec709), in a readable enum property whose name contains COLOR_ENCODING or COLOR_RANGE |
| DrmPreviewModel.ChoiceNamed | preview/drm_preview.cpp:488-519 | a write PropertyChoice picks is into a matching property, with the value of a matching enum entry |
| DrmPreviewModel.SetPlaneRequest | preview/drm_preview.cpp:744-745 | the plane request is for this plane, CRTC and framebuffer |
| DrmPreviewModel.SetPlaneInsidePreview | preview/drm_preview.cpp:726-745 | without wrap: the plane is letterboxed inside the preview rectangle and reads the whole imported image in 16.16 |
| DrmPreviewModel.StartGeometry | preview/drm_preview.cpp:264-273 | the CRTC's rectangle when full screen is asked for or a requested width or height is zero (the default); the requested rectangle otherwise |
| DrmPreviewModel.MakeBufferRequests | preview/drm_preview.cpp:600-697 | a framebuffer is requested exactly when set-up passed and the fd got a handle, always with the 4:2:0 layout on it; an image exactly when that framebuffer was made, always with the fixed hints |
| DrmPreviewModel.PreviousGivenUpLast | preview/drm_preview.cpp:707-715 | the previous bo is released exactly when the import succeeds and one exists; the RmFB passes `previous_fb` and follows the new AddFB2 |
| DrmPreviewModel.ResetCalls | preview/drm_preview.cpp:755-758 | two calls per entry walked |
| DrmPreviewModel.EveryEntryReleased | preview/drm_preview.cpp:755-758 | Reset removes every entry's framebuffer and deletes its texture, two calls per entry |
| DrmPreviewModel.ReleasedAt | preview/drm_preview.cpp:755-758 | step i of the walk releases the entry of the i-th key |
| DrmPreviewModel.GbmEglFailure | preview/drm_preview.cpp:274-342 | construction gets past GBM/EGL set-up exactly when every checked step succeeds; the error is one of those steps' |
| DrmPreviewModel.FindCrtcFailure | preview/drm_preview.cpp:172-342 | findCrtc succeeds exactly when there are resources and CRTCs, an eligible connector whose CRTC is listed, a readable connector with a mode, and GBM/EGL set-up passes; an unlisted CRTC gives CrtcNotFound |
| DrmPreviewModel.CreateFailure | preview/drm_preview.cpp:416-436 | construction succeeds exactly when the device opens, is master, findCrtc succeeds and the plane list is read; findCrtc's error is passed on as it is |
| DrmPreviewModel.ImportedOnce | preview/drm_preview.cpp:718-724 | a lookup changes no other entry and no imported entry; after a lookup that did not throw, the fd's entry holds its own import's handles and texture, and every later lookup of it is a hit |
| DrmPreviewModel.DrmPreview.constructor | preview/drm_preview.cpp:416-427 | the options' rectangle, empty cache, last_fd_ -1, first_time_ set, no previous bo |
| DrmPreviewModel.DrmPreview.Create | preview/drm_preview.cpp:416-452 | fails exactly when CreateFailure names an error, with that error; on success a Valid preview with an empty cache, nothing shown and an empty release log, configured as ConfiguredFrom describes |
| DrmPreviewModel.DrmPreview.FindCrtc | preview/drm_preview.cpp:172-360 | the outcome is FindCrtcFailure's error, or success when it names none; on success the selection, the limits and the start rectangle |
| DrmPreviewModel.DrmPreview.SelectCrtc | preview/drm_preview.cpp:182-242 | the limits; no eligible connector fails with NoSuitableConnector, an unlisted CRTC with CrtcNotFound, otherwise success; connector, CRTC and screen size from the scans |
| DrmPreviewModel.DrmPreview.FindPlane | preview/drm_preview.cpp:362-414 | the plane-resources error; otherwise planeId_ is the first suitable plane, unchanged when none |
| DrmPreviewModel.DrmPreview.Configure | preview/drm_preview.cpp:428-451 | findCrtc's error, else the plane-resources error, else success; on success the preview is placed and configured from options and device |
| DrmPreviewModel.DrmPreview.SetupColourSpace | preview/drm_preview.cpp:528-557 | the two property writes for the stream's colour space, then the shader error |
| DrmPreviewModel.DrmPreview.MakeBuffer | preview/drm_preview.cpp:600-716 | the error of ImportFailure; flag cleared; trace, entry, bo and previous_bo/previous_fb as the import leaves them |
| DrmPreviewModel.DrmPreview.LazyInit | preview/drm_preview.cpp:602-608 | the flag is cleared before trying; make-current and shader errors; the context becomes current |
| DrmPreviewModel.DrmPreview.ImportEntry | preview/drm_preview.cpp:610-704 | the import's error, the entry as far as it got, bo locked once the handle exists, the traced requests |
| DrmPreviewModel.DrmPreview.RotatePrevious | preview/drm_preview.cpp:707-715 | the previous framebuffer and bo are given up if present; previous_bo := bo, previous_fb := fd |
| DrmPreviewModel.DrmPreview.Show | preview/drm_preview.cpp:718-751 | the whole new cache (only `fd`'s entry changes, as Looked gives it); the flag, context, bo and previous globals; the error; trace of import, draws, swap and plane request for that entry; previous fd released and fd remembered only on success; Valid kept |
| DrmPreviewModel.DrmPreview.Obtain | preview/drm_preview.cpp:721-724 | the whole new cache as Looked gives it; a hit changes nothing else; a miss clears the flag and leaves the context, bo and previous globals as makeBuffer does |
| DrmPreviewModel.DrmPreview.Present | preview/drm_preview.cpp:733-746 | draws into both halves, one swap, the plane request; the SetPlane error |
| DrmPreviewModel.DrmPreview.Remember | preview/drm_preview.cpp:748-750 | previous fd released when >= 0, new fd remembered, Valid kept |
| DrmPreviewModel.DrmPreview.Reset | preview/drm_preview.cpp:753-763 | every entry released in key order, cache empty, last_fd_ -1 without release, flag set, context released |
| DrmPreviewModel.DrmPreview.ReleaseEntries | preview/drm_preview.cpp:755-758 | the loop appends ResetCalls of the cache in ascending key order |
| EglPreviewModel.WindowFailure | preview/egl_preview.cpp:347-405 | makeWindow succeeds exactly when config, visual, context and surface succeed; the error is one of those |
| EglPreviewModel.ImportFailure | preview/egl_preview.cpp:434-474 | makeBuffer succeeds exactly when the set-up (first time only) and the image succeed |
| EglPreviewModel.ImageRequests | preview/egl_preview.cpp:451-474 | an image is requested exactly when set-up passed, for this fd and stream, with the colour-space hints and the 4:2:0 planes of the fd |
| EglPreviewModel.SetUpRetried | preview/egl_preview.cpp:434-441 | after a run of imports the flag is still set exactly when every set-up failed; once clear it stays clear |
| EglPreviewModel.ShowSwapsOnce | preview/egl_preview.cpp:490-512 | at most one image per stream, before the left and right draws; exactly one swap, the last call |
| EglPreviewModel.DeleteCalls | preview/egl_preview.cpp:524-525 | one call per entry walked |
| EglPreviewModel.DeletedAt | preview/egl_preview.cpp:524-525 | step i of the walk deletes the texture of the i-th key |
| EglPreviewModel.EveryTextureDeleted | preview/egl_preview.cpp:524-525 | Reset deletes every first-stream texture, one call per entry, and nothing else |
| EglPreviewModel.EglPreview.constructor | preview/egl_preview.cpp:244-262 | the options as `int`s, both caches empty, both last fds -1, flag set |
| EglPreviewModel.EglPreview.Create | preview/egl_preview.cpp:244-264 | display, EGL and window errors in order; on success a Valid empty preview with an empty release log, window geometry and image limits |
| EglPreviewModel.EglPreview.MakeWindow | preview/egl_preview.cpp:314-415 | the rectangle is EglWindowGeometry of the old one; the window error; the texture limit as `unsigned` |
| EglPreviewModel.EglPreview.MakeBuffer | preview/egl_preview.cpp:432-479 | the error; the flag stays set exactly when set-up failed; the image request; the entry as far as it got |
| EglPreviewModel.EglPreview.Obtain | preview/egl_preview.cpp:492-498 | `m[fd]` inserted; a cache hit changes nothing; a miss runs makeBuffer; entries stay keyed |
| EglPreviewModel.EglPreview.ImportPair | preview/egl_preview.cpp:492-498 | the two lookups in order; an error in the first leaves the second cache alone |
| EglPreviewModel.EglPreview.Show | preview/egl_preview.cpp:490-520 | both caches; a repeated pair imports nothing; left/right draws and one swap; only the first stream's previous fd released; Valid kept |
| EglPreviewModel.EglPreview.Remember | preview/egl_preview.cpp:513-515 | previous fd released when >= 0, new fd remembered, Valid kept |
| EglPreviewModel.EglPreview.Reset | preview/egl_preview.cpp:522-530 | first-stream textures deleted, first cache empty, last_fd_ -1 without release, flag set; second cache and last_fd2_ unchanged |
| EglPreviewModel.EglPreview.DeleteTextures | preview/egl_preview.cpp:524-525 | the loop appends DeleteCalls of the cache in ascending key order |

## Left out

- Shader compilation and linking (`compile_shader`, `link_program`) are one success flag per import. They are foreign GL calls with string logs.
- The lens-distortion mesh built in `setup_colour_space` and `gl_setup` is left out because it is floating point. Its draws are traced only as texture plus viewport.
- `glClearColor`, `glClear` and `glBindFramebuffer` of both back-ends' Show, and the extra `glDrawArrays` of the DRM Show, are not traced.
- These X11 and EGL set-up steps are reduced to success flags:
  - in the EGL back-end, `XOpenDisplay`, `eglGetDisplay`, `eglInitialize`, `eglChooseConfig`, `eglGetConfigAttrib`, `eglCreateContext`, `eglCreateWindowSurface`;
  - in the DRM back-end, `gbm_surface_create`, `eglInitialize`, the `malloc` of the config array (the "no configs" error), `eglChooseConfig`, `eglCreateContext`.
- The DRM back-end does not check `gbm_create_device`, and a failing `eglGetConfigs` there only prints. Neither has a flag or an error in the model.
- `match_config_to_visual`, `XGetVisualInfo` (not checked for NULL in the code), `no_border`, the window hints and `XMapWindow` are windowing I/O.
- The DRM path's unchecked `eglGetDisplay` and `eglCreateWindowSurface` results (only printed) are not modelled.
- `Quit` and `MaxImageSize` are left out: the first polls X11 events and the second is a getter.
- The destructor and `make_*_preview` factories are left out.
- `drmOpen` and `drmIsMaster` are the `openOk`/`isMaster` flags.
- Some libdrm results are dereferenced without a NULL check: `drmModeGetConnector` and `drmModeGetEncoder` in the connector scan, `drmModeGetCrtc` for the start rectangle, and `drmModeObjectGetProperties` in `drm_set_property`. A NULL from any of them crashes the program. The model assumes they never return NULL: a `Connector` is always readable and the plane's property list always exists.
- Concurrency is left out. The deferred `eglMakeCurrent` is the ghost flag `contextCurrent`.
- Image contents, `span` data and the transient EGL image lifetime are not modelled.
- The `count_connectors` check after the CRTC search cannot fail once a connector was chosen, so it has no error path.
- The connector re-read `drmModeGetConnector(conId_)` is one optional mode count.
- findPlane's `if (!planes)` inside the loop tests the list, not the plane, so it never throws. The model has no per-plane failure.
- Uninitialised C++ members (the Buffer handles and texture, `planeId_`) are 0 in the model. The global `previous_fb` is zero-initialised, as in C++.
- The globals `bo`, `previous_bo` and `previous_fb` are per-instance fields, set up by each constructor. In the code they are process globals, so a second DrmPreview in the same process starts with the first one's `previous_bo` and `previous_fb`; that carry-over is not modelled.
- The EGL back-end's `int` window arithmetic (`x_ + width_`) is unbounded in the model. Signed overflow is undefined in C++ and not modelled.
- The `unsigned` to `int` conversion of the options is modelled (`AsEglInt`).
- The EGL image, framebuffer and plane requests are recorded as descriptors of what they are built from (`ImportArgs`, `AddFb2Args`, `SetPlaneArgs`). The values built from them are separate functions with their own lemmas (`ImportAttribs`, `AddFb2`, `SetPlaneRequest`).
- DrmPreviewModel.DrmPreview.Show: requires `AspectFitDefined`, that is, a non-zero divisor in the aspect fit. A stream of height 0 divides by zero in the code; that case is not modelled.
- DrmPreviewModel.DrmPreview.Create: does not state the lazy-initialisation flag or the `previous_bo` globals after construction. The constructor states them, and nothing between the two changes them.
- DrmPreviewModel.SetPlaneInsidePreview: proved only when no product or sum wraps. For wrapping values the model computes the code's `unsigned` result (`SetPlaneRequest`), but no property is claimed.
- Geometry.AspectFitLetterboxes: proved only when no product wraps, for the same reason.
