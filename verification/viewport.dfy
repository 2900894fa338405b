/**
 * The pure arithmetic of the level-fit camera (src/ldtk.rs): which branch a
 * level takes, the snapped viewport size, and the clamp of the camera along
 * the tracked axis.
 *
 * Pixel sizes are integers; the engine's `f32` values are exact reals. The
 * rounding `(x / g).round() * g` of a non-negative pixel count is done in
 * integers, with ties rounded up as `f32::round` does on positive values.
 */
module Viewport {

  /** The target aspect ratio, 16:9. */
  const ASPECT_RATIO: real := 16.0 / 9.0

  /** The projection scale the camera is spawned with. */
  const CAMERA_SCALE: real := 1.0

  /** The viewport of a fixed scaling mode, in world units. */
  datatype Size = Size(width: real, height: real)

  function Dist(a: real, b: real): real {
    if a < b then b - a else a - b
  }

  function IntDist(a: int, b: int): int {
    if a < b then b - a else a - b
  }

  /**
   * The level is wider than the screen: `px_wid / px_hei > 16 / 9`,
   * cross-multiplied so that no division is needed.
   */
  predicate IsWider(pxWid: nat, pxHei: nat) {
    9 * pxWid > 16 * pxHei
  }

  /** The cross-multiplied test is the ratio comparison of the source, strict. */
  lemma WiderIffRatioAbove(pxWid: nat, pxHei: nat)
    requires pxHei > 0
    ensures IsWider(pxWid, pxHei) <==> pxWid as real / pxHei as real > ASPECT_RATIO
  {
  }

  /** A level of exactly 16:9, such as 32 x 18, or a narrower one takes the taller branch. */
  lemma BranchExamples()
    ensures !IsWider(32, 18) && !IsWider(16, 9) && !IsWider(100, 100)
    ensures IsWider(33, 18) && IsWider(1600, 800)
  {
  }

  /** `round(px_hei / 9) * 9`: the nearest multiple of 9. */
  function SnapHeight(pxHei: nat): (height: nat)
    ensures height % 9 == 0
    ensures pxHei - 4 <= height <= pxHei + 4
  {
    var q := (2 * pxHei + 9) / 18;
    assert 18 * q <= 2 * pxHei + 9 < 18 * q + 18;
    9 * q
  }

  /** `round(px_wid / 16) * 16`: the nearest multiple of 16, a tie rounded up. */
  function SnapWidth(pxWid: nat): (width: nat)
    ensures width % 16 == 0
    ensures pxWid - 8 < width <= pxWid + 8
  {
    var q := (pxWid + 8) / 16;
    assert 16 * q <= pxWid + 8 < 16 * q + 16;
    16 * q
  }

  /** No multiple of 9 is nearer to the level height than the snapped height. */
  lemma SnapHeightIsNearest(pxHei: nat, k: int)
    ensures IntDist(SnapHeight(pxHei), pxHei) <= IntDist(9 * k, pxHei)
  {
  }

  /**
   * No multiple of 16 is nearer to the level width than the snapped width,
   * and of two equally near ones the larger is taken: 24 snaps to 32.
   */
  lemma SnapWidthIsNearest(pxWid: nat, k: int)
    ensures IntDist(SnapWidth(pxWid), pxWid) <= IntDist(16 * k, pxWid)
    ensures IntDist(SnapWidth(pxWid), pxWid) == IntDist(16 * k, pxWid) ==> 16 * k <= SnapWidth(pxWid)
  {
  }

  /** The rounding tie of the 16-pixel grid goes up. */
  lemma SnapWidthTieRoundsUp()
    ensures SnapWidth(24) == 32 && SnapWidth(8) == 16 && SnapWidth(23) == 16
  {
  }

  /**
   * The fixed viewport chosen for a level of `pxWid` x `pxHei` pixels: the
   * wider branch snaps the height to the 9-pixel grid, the taller one the
   * width to the 16-pixel grid, and the other side follows from 16:9.
   */
  function FitViewport(pxWid: nat, pxHei: nat): (v: Size)
    ensures v.width * 9.0 == v.height * 16.0
    ensures v.height == (v.height.Floor as real) && v.height.Floor % 9 == 0
    ensures v.width == (v.width.Floor as real) && v.width.Floor % 16 == 0
    ensures IsWider(pxWid, pxHei) ==> v.height == SnapHeight(pxHei) as real
    ensures !IsWider(pxWid, pxHei) ==> v.width == SnapWidth(pxWid) as real
  {
    if IsWider(pxWid, pxHei) then
      var height := SnapHeight(pxHei) as real;
      GridCellsInRatio(SnapHeight(pxHei) / 9);
      Size(height * ASPECT_RATIO, height)
    else
      var width := SnapWidth(pxWid) as real;
      GridCellsInRatio(SnapWidth(pxWid) / 16);
      Size(width, width / ASPECT_RATIO)
  }

  /** `m` cells of 9 pixels scale by 16:9 to `m` cells of 16 pixels, and back. */
  lemma GridCellsInRatio(m: int)
    ensures (9 * m) as real * ASPECT_RATIO == (16 * m) as real
    ensures (16 * m) as real / ASPECT_RATIO == (9 * m) as real
  {
  }

  /**
   * The viewport overshoots the level on the fitted axis, which the camera
   * does not clamp, by at most half a grid cell: 4 pixels of height in the
   * wider branch, 8 pixels of width in the taller one.
   */
  lemma FittedAxisOvershoot(pxWid: nat, pxHei: nat)
    ensures IsWider(pxWid, pxHei) ==> FitViewport(pxWid, pxHei).height <= pxHei as real + 4.0
    ensures !IsWider(pxWid, pxHei) ==> FitViewport(pxWid, pxHei).width <= pxWid as real + 8.0
  {
  }

  /** The level of 1600 x 800 pixels: height round(88.9) * 9 = 801, width 1424. */
  lemma FitViewportExample()
    ensures FitViewport(1600, 800) == Size(1424.0, 801.0)
  {
  }

  /**
   * `f32::clamp(v, lo, hi)`, defined only when `lo <= hi` (the engine panics
   * otherwise): the point of `[lo, hi]` nearest to `v`.
   */
  function Clamp(v: real, lo: real, hi: real): (r: real)
    requires lo <= hi
    ensures lo <= r <= hi
    ensures lo <= v <= hi ==> r == v
    ensures forall c :: lo <= c <= hi ==> Dist(r, v) <= Dist(c, v)
  {
    if v < lo then lo else if v > hi then hi else v
  }

  /**
   * The clamp on the tracked axis has a non-empty range: the viewport is no
   * longer than the level along the axis the camera follows the player on.
   */
  predicate ViewportFitsLevel(pxWid: nat, pxHei: nat) {
    var v := FitViewport(pxWid, pxHei);
    if IsWider(pxWid, pxHei) then v.width <= pxWid as real else v.height <= pxHei as real
  }

  /**
   * The clamp range is empty only when the snapping rounded the fitted side
   * up: had it rounded down, the 16:9 viewport would fit inside the level.
   */
  lemma OnlyRoundingUpOverflows(pxWid: nat, pxHei: nat)
    requires !ViewportFitsLevel(pxWid, pxHei)
    ensures IsWider(pxWid, pxHei) ==> SnapHeight(pxHei) > pxHei
    ensures !IsWider(pxWid, pxHei) ==> SnapWidth(pxWid) > pxWid
  {
  }

  /**
   * Levels whose clamp would panic: 25 x 14 is wider and gets a 32 x 18
   * viewport, 24 x 14 is taller and gets one of 32 x 18 as well.
   */
  lemma OverflowExamples()
    ensures IsWider(25, 14) && FitViewport(25, 14) == Size(32.0, 18.0) && !ViewportFitsLevel(25, 14)
    ensures !IsWider(24, 14) && FitViewport(24, 14) == Size(32.0, 18.0) && !ViewportFitsLevel(24, 14)
  {
  }
}
