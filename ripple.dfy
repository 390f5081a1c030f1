/** The click ripple on the spider-web graphic (script.js). A click creates a
    circle at the click point with radius 0; each animation frame grows its
    own radius by 5 and writes it to the circle, and the frame reschedules
    itself while the radius is below 100, otherwise it removes the circle. */
module RippleEffect {

  const Step: int := 5
  const Threshold: int := 100

  /** The radius written by the k-th frame (0 before any frame). */
  function RadiusAfter(k: nat): int
  {
    if k == 0 then 0 else RadiusAfter(k - 1) + Step
  }

  /** Whether a frame that has just written `radius` schedules another. */
  predicate Reschedules(radius: int) {
    radius < Threshold
  }

  /** The radii run 0, 5, 10, ..., 100: frame k writes 5k, every frame before
      the 20th reschedules, and the 20th writes exactly 100 and removes the
      circle. */
  lemma {:induction false} RippleSchedule(k: nat)
    requires k <= 20
    ensures RadiusAfter(k) == 5 * k && RadiusAfter(k) <= Threshold
    ensures k >= 1 ==> (Reschedules(RadiusAfter(k)) <==> k < 20)
  {
    if k > 0 {
      RippleSchedule(k - 1);
    }
  }

  /** One ripple circle, with the radius variable its own click handler
      closes over. */
  class Ripple {
    const cx: real
    const cy: real
    var radius: int
    /** The circle's `r` attribute. */
    var r: int
    var attached: bool
    var frames: nat

    ghost predicate Valid()
      reads this
    {
      frames <= 20 && radius == RadiusAfter(frames) && r == radius &&
      (attached <==> frames < 20)
    }

    /** The click handler: the click point relative to the graphic's box. */
    constructor (clientX: real, clientY: real, left: real, top: real)
      ensures Valid()
      ensures cx == clientX - left && cy == clientY - top
      ensures radius == 0 && r == 0 && attached && frames == 0
    {
      cx := clientX - left;
      cy := clientY - top;
      radius := 0;
      r := 0;
      attached := true;
      frames := 0;
    }

    /** animateRipple: one frame of a circle that is still scheduled. */
    method Frame()
      requires Valid() && attached
      modifies this
      ensures Valid()
      ensures radius == old(radius) + Step && r == radius && radius <= Threshold
      ensures attached <==> Reschedules(radius)
      ensures frames == old(frames) + 1
    {
      RippleSchedule(frames + 1);
      radius := radius + Step;
      r := radius;
      frames := frames + 1;
      if radius >= Threshold {
        attached := false;
      }
    }

    /** Runs the frames until the circle removes itself: that takes exactly
        20 frames and the last radius written is 100. */
    method Animate() returns (written: seq<int>)
      requires Valid() && frames == 0
      modifies this
      ensures Valid() && !attached && frames == 20 && r == Threshold
      ensures |written| == 20 && forall i :: 0 <= i < 20 ==> written[i] == 5 * (i + 1)
    {
      written := [];
      while attached
        invariant Valid() && |written| == frames
        invariant forall i :: 0 <= i < frames ==> written[i] == 5 * (i + 1)
        decreases 20 - frames
      {
        Frame();
        RippleSchedule(frames);
        written := written + [radius];
      }
      RippleSchedule(20);
    }
  }
}
