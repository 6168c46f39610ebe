/** On-screen geometry: the letterbox rectangle of the DRM overlay plane, the full-screen
    fallbacks of both back-ends, and the fixed split-screen viewports. */
module Geometry {
  import opened Common

  datatype Rect = Rect(x: int, y: int, w: int, h: int)

  /** The divisor the aspect fit uses is non-zero: `info.width` in the height-limited branch
      (it is non-zero whenever that branch is taken), `info.height` otherwise. */
  predicate AspectFitDefined(srcW: nat, srcH: nat, width: nat, height: nat)
  {
    srcH != 0 || Mul32(srcW, height) > Mul32(width, srcH)
  }

  /** The destination rectangle of the overlay plane inside the `width` x `height` target,
      computed in `unsigned int` as DrmPreview::Show does: a source wider than the target
      keeps the full width and is centred vertically, any other keeps the full height and is
      centred horizontally. */
  function AspectFit(srcW: nat, srcH: nat, width: nat, height: nat): (r: Rect)
    requires IsU32(srcW) && IsU32(srcH) && IsU32(width) && IsU32(height)
    requires AspectFitDefined(srcW, srcH, width, height)
    ensures 0 <= r.x < U32 && 0 <= r.y < U32 && 0 <= r.w < U32 && 0 <= r.h < U32
  {
    if Mul32(srcW, height) > Mul32(width, srcH) then
      var h := Scale32(width, srcH, srcW);
      Rect(0, Sub32(height, h) / 2, width, h)
    else
      var w := Scale32(height, srcW, srcH);
      Rect(Sub32(width, w) / 2, 0, w, height)
  }

  /** `a * b / d` in `unsigned int`. */
  function Scale32(a: nat, b: nat, d: nat): (r: nat)
    requires d != 0
    ensures r < U32
  {
    DivAtMost(Mul32(a, b), d);
    Mul32(a, b) / d
  }

  lemma DivAtMost(n: nat, d: nat)
    requires d > 0
    ensures n / d <= n
  {
    assert n == d * (n / d) + n % d;
    MulMono(1, n / d, d, n / d);
  }

  /** Floor division pins the quotient between two multiples. */
  lemma DivBounds(n: nat, d: nat)
    requires d > 0
    ensures (n / d) * d <= n < (n / d + 1) * d
  {
  }

  /** When no product wraps, the fitted rectangle lies inside the target, fills it in one
      dimension, is centred in the other, and has the source's aspect ratio up to the
      rounding of one integer division. */
  lemma {:induction false} AspectFitLetterboxes(srcW: nat, srcH: nat, width: nat, height: nat)
    requires IsU32(srcW) && IsU32(srcH) && IsU32(width) && IsU32(height)
    requires srcW > 0 && srcH > 0
    requires srcW * height < U32 && width * srcH < U32
    ensures AspectFitDefined(srcW, srcH, width, height)
    ensures var r := AspectFit(srcW, srcH, width, height);
      && r.x + r.w <= width && r.y + r.h <= height
      && (r.w == width || r.h == height)
      && r.x == (width - r.w) / 2 && r.y == (height - r.h) / 2
      && (srcW * height > width * srcH ==>
            r.w == width && r.h * srcW <= width * srcH < (r.h + 1) * srcW)
      && (srcW * height <= width * srcH ==>
            r.h == height && r.w * srcH <= height * srcW < (r.w + 1) * srcH)
  {
    assert Mul32(srcW, height) == srcW * height && Mul32(width, srcH) == width * srcH;
    assert height * srcW == srcW * height;
    if srcW * height > width * srcH {
      WidthLimited(srcW, srcH, width, height);
    } else {
      HeightLimited(srcW, srcH, width, height);
    }
  }

  /** A source wider than the target: the scaled height stays below the target height. */
  lemma WidthLimited(srcW: nat, srcH: nat, width: nat, height: nat)
    requires srcW > 0 && width * srcH < srcW * height
    ensures var h := (width * srcH) / srcW;
      h < height && h * srcW <= width * srcH < (h + 1) * srcW
  {
    var h := (width * srcH) / srcW;
    DivBounds(width * srcH, srcW);
    if h >= height {
      MulMono(height, srcW, h, srcW);
    }
  }

  /** Any other source: the scaled width does not exceed the target width. */
  lemma HeightLimited(srcW: nat, srcH: nat, width: nat, height: nat)
    requires srcH > 0 && srcW * height <= width * srcH
    ensures var w := (height * srcW) / srcH;
      w <= width && w * srcH <= height * srcW < (w + 1) * srcH
  {
    var w := (height * srcW) / srcH;
    DivBounds(height * srcW, srcH);
    if w > width {
      MulMono(width + 1, srcH, w, srcH);
    }
  }

  /** A 640x480 source on a 1920x1080 target is drawn 1440x1080 at x offset 240. */
  lemma AspectFitExample()
    ensures AspectFit(640, 480, 1920, 1080) == Rect(240, 0, 1440, 1080)
  {
  }

  /** The final geometry of the DRM preview, as its constructor computes it in
      `unsigned int`: full screen when asked for, when a dimension is zero, or when the
      rectangle overruns the screen; otherwise the rectangle as requested. */
  function DrmScreenFit(fullscreen: bool, x: nat, y: nat, width: nat, height: nat,
                        screenWidth: nat, screenHeight: nat): (r: Rect)
    ensures r == Rect(0, 0, screenWidth, screenHeight) || r == Rect(x, y, width, height)
  {
    if fullscreen || width == 0 || height == 0 || Add32(x, width) > screenWidth ||
       Add32(y, height) > screenHeight
    then Rect(0, 0, screenWidth, screenHeight)
    else Rect(x, y, width, height)
  }

  /** When the sums do not wrap, the requested rectangle is kept exactly when it is
      non-empty, fits the screen and full screen was not asked for; either way the result
      fits the screen. */
  lemma DrmScreenFitFits(fullscreen: bool, x: nat, y: nat, width: nat, height: nat,
                         screenWidth: nat, screenHeight: nat)
    requires x + width < U32 && y + height < U32
    ensures var r := DrmScreenFit(fullscreen, x, y, width, height, screenWidth, screenHeight);
      && r.x + r.w <= screenWidth && r.y + r.h <= screenHeight
      && (if !fullscreen && width > 0 && height > 0 && x + width <= screenWidth && y + height <= screenHeight
          then r == Rect(x, y, width, height)
          else r == Rect(0, 0, screenWidth, screenHeight))
  {
  }

  /** The overrun test is made in `unsigned int`, so an x offset close to 2^32 wraps the sum
      and lets a rectangle through that does not fit the screen. */
  lemma DrmScreenFitWraps()
    ensures DrmScreenFit(false, 0xFFFF_FFF6, 0, 100, 100, 1920, 1080) == Rect(0xFFFF_FFF6, 0, 100, 100)
    ensures 0xFFFF_FFF6 + 100 > 1920
  {
  }

  /** The geometry of the X11 preview window (EglPreview::makeWindow, in `int`): a zero
      dimension means 1024x768, then full screen when asked for or when the window overruns
      the screen. */
  function EglWindowGeometry(fullscreen: bool, x: int, y: int, width: int, height: int,
                             screenWidth: int, screenHeight: int): (r: Rect)
    ensures r.x + r.w <= screenWidth && r.y + r.h <= screenHeight
    ensures 0 <= x && 0 <= y && 0 <= width && 0 <= height && 0 <= screenWidth && 0 <= screenHeight ==>
              0 <= r.x && 0 <= r.y && 0 <= r.w && 0 <= r.h
  {
    var (w, h) := if width == 0 || height == 0 then (1024, 768) else (width, height);
    if fullscreen || x + w > screenWidth || y + h > screenHeight
    then Rect(0, 0, screenWidth, screenHeight)
    else Rect(x, y, w, h)
  }

  /** Which window the defaults and the fallback give: the requested rectangle (or its
      1024x768 default) when it fits and full screen was not asked for, the screen
      otherwise. */
  lemma EglWindowGeometryCases(fullscreen: bool, x: int, y: int, width: int, height: int,
                               screenWidth: int, screenHeight: int)
    ensures var r := EglWindowGeometry(fullscreen, x, y, width, height, screenWidth, screenHeight);
            var w := if width == 0 || height == 0 then 1024 else width;
            var h := if width == 0 || height == 0 then 768 else height;
      && (fullscreen ==> r == Rect(0, 0, screenWidth, screenHeight))
      && (!fullscreen && x + w <= screenWidth && y + h <= screenHeight ==> r == Rect(x, y, w, h))
      && (x + w > screenWidth || y + h > screenHeight ==> r == Rect(0, 0, screenWidth, screenHeight))
  {
  }

  /** Only the right and bottom edges are tested: a negative position or size (an option of
      2^31 or more read into an `int`) is kept as it is. */
  lemma EglWindowNegativeKept()
    ensures EglWindowGeometry(false, -10, 0, 640, 480, 1920, 1080) == Rect(-10, 0, 640, 480)
    ensures EglWindowGeometry(false, 0, 0, -5, 480, 1920, 1080) == Rect(0, 0, -5, 480)
  {
  }

  /** glViewport rectangles of the two halves of the split-screen view. */
  const LeftHalf := Rect(0, 0, 960, 1080)
  const RightHalf := Rect(960, 0, 960, 1080)

  /** One draw of the preview mesh: the texture bound and the viewport set. */
  datatype Draw = Draw(texture: nat, viewport: Rect)

  predicate Covers(r: Rect, px: int, py: int)
  {
    r.x <= px < r.x + r.w && r.y <= py < r.y + r.h
  }

  /** The two halves never draw over each other and together cover 1920x1080. */
  lemma SplitViewports(px: int, py: int)
    ensures !(Covers(LeftHalf, px, py) && Covers(RightHalf, px, py))
    ensures Covers(Rect(0, 0, 1920, 1080), px, py) <==> Covers(LeftHalf, px, py) || Covers(RightHalf, px, py)
  {
  }
}
