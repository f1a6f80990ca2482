/** The boundary box of `Experience.jsx`: the box set on the control panel is
    stretched with the window, so that the flock fills wider or taller screens.

    The window size is a parameter: the resize listener and its 50 ms
    debounce only decide when a new size arrives, not what is computed from
    it. */
module Experience {
  import opened MathUtils
  import opened Vectors

  /** The window size at which the panel's box is used as it is. */
  const ReferenceWidth: real := 1920.0
  const ReferenceHeight: real := 1080.0

  /** The box never shrinks below half the panel's values, however narrow the
      window. */
  const MinViewportScale: real := 0.5

  /** `Math.max(0.5, size / reference)`: the window's size relative to the
      reference size, but never below one half. */
  function ViewportScale(size: nat, reference: real): (k: real)
    requires 0.0 < reference
    ensures MinViewportScale <= k
    ensures size as real / reference <= k
    ensures k == MinViewportScale || k == size as real / reference
  {
    Max(MinViewportScale, size as real / reference)
  }

  /** `scaleX`. */
  function ScaleX(width: nat): (k: real)
    ensures MinViewportScale <= k
    ensures width as real / ReferenceWidth <= k
    ensures k == MinViewportScale || k == width as real / ReferenceWidth
  {
    ViewportScale(width, ReferenceWidth)
  }

  /** `scaleY`. */
  function ScaleY(height: nat): (k: real)
    ensures MinViewportScale <= k
    ensures height as real / ReferenceHeight <= k
    ensures k == MinViewportScale || k == height as real / ReferenceHeight
  {
    ViewportScale(height, ReferenceHeight)
  }

  /** `responsiveBoudaries`: the panel's box with x stretched by `scaleX`,
      y by `scaleY`, and z left as it is. */
  function ResponsiveBoundaries(slider: Vec3, width: nat, height: nat): (r: Vec3)
    ensures r.z == slider.z
    ensures width >= 960 ==> r.x == slider.x * (width as real / ReferenceWidth)
    ensures width <= 960 ==> r.x == slider.x * MinViewportScale
    ensures height >= 540 ==> r.y == slider.y * (height as real / ReferenceHeight)
    ensures height <= 540 ==> r.y == slider.y * MinViewportScale
  {
    Vec3(slider.x * ScaleX(width), slider.y * ScaleY(height), slider.z)
  }

  /** At the reference window size the panel's box is used unchanged. */
  lemma ReferenceSizeIsIdentity(slider: Vec3)
    ensures ResponsiveBoundaries(slider, 1920, 1080) == slider
  {
    assert ScaleX(1920) == 1.0;
    assert ScaleY(1080) == 1.0;
  }

  /** For a box with no negative side, the stretched box has no negative
      side either, and each stretched side is at least half the panel's
      value. */
  lemma ResponsiveBounds(slider: Vec3, width: nat, height: nat)
    requires 0.0 <= slider.x && 0.0 <= slider.y && 0.0 <= slider.z
    ensures var r := ResponsiveBoundaries(slider, width, height);
            && slider.x * MinViewportScale <= r.x
            && slider.y * MinViewportScale <= r.y
            && 0.0 <= r.x && 0.0 <= r.y && 0.0 <= r.z
  {
    var kx, ky := ScaleX(width), ScaleY(height);
    ProductNonNegative(slider.x, kx - MinViewportScale);
    ProductNonNegative(slider.y, ky - MinViewportScale);
    assert slider.x * (kx - MinViewportScale) == slider.x * kx - slider.x * MinViewportScale;
    assert slider.y * (ky - MinViewportScale) == slider.y * ky - slider.y * MinViewportScale;
  }

  /** A wider window never gives a narrower box, nor a taller window a
      shorter one. */
  lemma ResponsiveMonotone(slider: Vec3, width1: nat, height1: nat, width2: nat, height2: nat)
    requires 0.0 <= slider.x && 0.0 <= slider.y
    requires width1 <= width2 && height1 <= height2
    ensures ResponsiveBoundaries(slider, width1, height1).x <= ResponsiveBoundaries(slider, width2, height2).x
    ensures ResponsiveBoundaries(slider, width1, height1).y <= ResponsiveBoundaries(slider, width2, height2).y
  {
    ScaleGrows(width1, width2, ReferenceWidth);
    ScaleGrows(height1, height2, ReferenceHeight);
    var kx1, kx2 := ScaleX(width1), ScaleX(width2);
    var ky1, ky2 := ScaleY(height1), ScaleY(height2);
    ProductNonNegative(slider.x, kx2 - kx1);
    ProductNonNegative(slider.y, ky2 - ky1);
    assert slider.x * (kx2 - kx1) == slider.x * kx2 - slider.x * kx1;
    assert slider.y * (ky2 - ky1) == slider.y * ky2 - slider.y * ky1;
  }

  /** The viewport scale grows with the window. */
  lemma ScaleGrows(size1: nat, size2: nat, reference: real)
    requires size1 <= size2
    requires 0.0 < reference
    ensures ViewportScale(size1, reference) <= ViewportScale(size2, reference)
  {
    var a, b := size1 as real, size2 as real;
    var inv := 1.0 / reference;
    ProductNonNegative(b - a, inv);
    assert a / reference == a * inv;
    assert b / reference == b * inv;
    assert (b - a) * inv == b * inv - a * inv;
  }

  /** A larger panel value gives a larger box side, whatever the window. */
  lemma ResponsiveFollowsPanel(slider1: Vec3, slider2: Vec3, width: nat, height: nat)
    requires slider1.x <= slider2.x && slider1.y <= slider2.y && slider1.z <= slider2.z
    ensures var r1, r2 := ResponsiveBoundaries(slider1, width, height), ResponsiveBoundaries(slider2, width, height);
            r1.x <= r2.x && r1.y <= r2.y && r1.z <= r2.z
  {
    var kx, ky := ScaleX(width), ScaleY(height);
    ProductNonNegative(slider2.x - slider1.x, kx);
    ProductNonNegative(slider2.y - slider1.y, ky);
    assert (slider2.x - slider1.x) * kx == slider2.x * kx - slider1.x * kx;
    assert (slider2.y - slider1.y) * ky == slider2.y * ky - slider1.y * ky;
  }
}
