/**
 * The image viewer (src/components/ui/Lightbox.tsx): the shown image's
 * index, the rotation in degrees and the zoom factor.
 *
 * The zoom factor moves in steps of 0.5 between 0.5 and 3, so it is kept as
 * a whole number of half steps, `halfSteps`, with scale = halfSteps / 2.
 */
module Viewer {

  const MIN_HALF_STEPS: int := 1
  const MAX_HALF_STEPS: int := 6
  /** Scale 1, the zoom of a freshly opened image. */
  const UNIT_HALF_STEPS: int := 2

  function ScaleOf(halfSteps: int): real {
    halfSteps as real / 2.0
  }

  /** `prev > 0 ? prev - 1 : images.length - 1`. */
  function PrevIndex(i: int, n: int): int {
    if i > 0 then i - 1 else n - 1
  }

  /** `prev < images.length - 1 ? prev + 1 : 0`. */
  function NextIndex(i: int, n: int): int {
    if i < n - 1 then i + 1 else 0
  }

  lemma ModBelow(a: int, n: int)
    requires 0 <= a < n
    ensures a % n == a
  {
  }

  lemma ModOneAbove(a: int, n: int)
    requires 0 < n <= a < 2 * n
    ensures a % n == a - n
  {
    assert a == n + (a - n);
  }

  /** On a non-empty list both buttons wrap around: they are steps modulo the list length. */
  lemma IndexStepsAreModular(i: int, n: int)
    requires 0 <= i < n
    ensures NextIndex(i, n) == (i + 1) % n
    ensures PrevIndex(i, n) == (i + n - 1) % n
    ensures 0 <= NextIndex(i, n) < n && 0 <= PrevIndex(i, n) < n
  {
    if i < n - 1 {
      ModBelow(i + 1, n);
    } else {
      ModOneAbove(i + 1, n);
    }
    if i > 0 {
      ModOneAbove(i + n - 1, n);
    } else {
      ModBelow(n - 1, n);
    }
  }

  /** Next then previous, or previous then next, returns to the same image. */
  lemma NextPrevRoundTrip(i: int, n: int)
    requires 0 <= i < n
    ensures PrevIndex(NextIndex(i, n), n) == i
    ensures NextIndex(PrevIndex(i, n), n) == i
  {
  }

  /** `Math.min(prev + 0.5, 3)` in half steps. */
  function ZoomIn(h: int): int {
    if h + 1 < MAX_HALF_STEPS then h + 1 else MAX_HALF_STEPS
  }

  /** `Math.max(prev - 0.5, 0.5)` in half steps. */
  function ZoomOut(h: int): int {
    if h - 1 > MIN_HALF_STEPS then h - 1 else MIN_HALF_STEPS
  }

  /** The half-step zoom is the source's zoom on reals, and keeps the factor in [0.5, 3]. */
  lemma ZoomMatchesScale(h: int)
    ensures ScaleOf(ZoomIn(h)) == (if ScaleOf(h) + 0.5 < 3.0 then ScaleOf(h) + 0.5 else 3.0)
    ensures ScaleOf(ZoomOut(h)) == (if ScaleOf(h) - 0.5 > 0.5 then ScaleOf(h) - 0.5 else 0.5)
    ensures MIN_HALF_STEPS <= h <= MAX_HALF_STEPS ==>
              0.5 <= ScaleOf(ZoomIn(h)) <= 3.0 && 0.5 <= ScaleOf(ZoomOut(h)) <= 3.0
  {
  }

  /** The viewer's state. */
  class Lightbox {
    const images: seq<string>
    var index: int
    var rotation: int
    var halfSteps: int

    /** The zoom factor stays in [0.5, 3]. */
    predicate ScaleInRange()
      reads this
    {
      MIN_HALF_STEPS <= halfSteps <= MAX_HALF_STEPS
    }

    predicate IndexInRange()
      reads this
    {
      0 <= index < |images|
    }

    function Scale(): real
      reads this
    {
      ScaleOf(halfSteps)
    }

    /**
     * The component's initial state: `initialIndex`, no rotation, scale 1.
     * `initialIndex` is the prop, which is 0 when the caller leaves it out.
     */
    constructor (images: seq<string>, initialIndex: int)
      ensures this.images == images && index == initialIndex && rotation == 0 && halfSteps == UNIT_HALF_STEPS
      ensures Scale() == 1.0 && ScaleInRange()
    {
      this.images := images;
      index, rotation, halfSteps := initialIndex, 0, UNIT_HALF_STEPS;
    }

    /** The effect run whenever the viewer is opened: back to `initialIndex`, upright, scale 1. */
    method Open(initialIndex: int)
      modifies this
      ensures index == initialIndex && rotation == 0 && halfSteps == UNIT_HALF_STEPS && Scale() == 1.0
      ensures ScaleInRange()
      ensures 0 <= initialIndex < |images| ==> IndexInRange()
    {
      index, rotation, halfSteps := initialIndex, 0, UNIT_HALF_STEPS;
    }

    method Prev()
      modifies this
      ensures index == PrevIndex(old(index), |images|) && rotation == 0 && halfSteps == UNIT_HALF_STEPS
      ensures ScaleInRange()
      ensures old(IndexInRange()) ==> IndexInRange()
    {
      if old(IndexInRange()) {
        IndexStepsAreModular(index, |images|);
      }
      index := PrevIndex(index, |images|);
      rotation, halfSteps := 0, UNIT_HALF_STEPS;
    }

    method Next()
      modifies this
      ensures index == NextIndex(old(index), |images|) && rotation == 0 && halfSteps == UNIT_HALF_STEPS
      ensures ScaleInRange()
      ensures old(IndexInRange()) ==> IndexInRange()
    {
      if old(IndexInRange()) {
        IndexStepsAreModular(index, |images|);
      }
      index := NextIndex(index, |images|);
      rotation, halfSteps := 0, UNIT_HALF_STEPS;
    }

    /** A quarter turn clockwise; the angle is not reduced modulo 360. */
    method Rotate()
      modifies this`rotation
      ensures rotation == old(rotation) + 90 && index == old(index) && halfSteps == old(halfSteps)
    {
      rotation := rotation + 90;
    }

    method ZoomInStep()
      modifies this`halfSteps
      ensures halfSteps == ZoomIn(old(halfSteps)) && index == old(index) && rotation == old(rotation)
      ensures old(ScaleInRange()) ==> ScaleInRange()
    {
      halfSteps := ZoomIn(halfSteps);
    }

    method ZoomOutStep()
      modifies this`halfSteps
      ensures halfSteps == ZoomOut(old(halfSteps)) && index == old(index) && rotation == old(rotation)
      ensures old(ScaleInRange()) ==> ScaleInRange()
    {
      halfSteps := ZoomOut(halfSteps);
    }
  }
}
