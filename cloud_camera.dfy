/**
 * The camera director of the thought-cloud scene (src/components/explore/thought-cloud.tsx):
 * the target refs the selection effect sets, and the per-frame easing towards them.
 */
module CloudCamera {
  import opened Wrappers
  import opened Vectors
  import opened ThoughtCloud

  /** `CAMERA_POSITION`: where the camera starts and where the overview puts it back. */
  const DefaultCameraPosition := Vec3(0.0, 0.0, 5.0)
  /** A focused marker is looked at from 3.5 units in front of it along z. */
  const FocusOffset := Vec3(0.0, 0.0, 3.5)
  /** The fraction of the remaining way covered per frame. */
  const Damping := 0.05
  /** Animation stops once both distances are under 0.1, i.e. their squares under 0.01. */
  const SettleSqDistance := 0.01

  /** The camera target the selection effect chooses. */
  function DesiredCameraPosition(selected: Option<ThoughtNode>): (p: Vec3)
    ensures selected.None? ==> p == DefaultCameraPosition
    ensures selected.Some? ==> Sub(p, selected.value.position) == FocusOffset
  {
    match selected
    case None => DefaultCameraPosition
    case Some(t) => Add(t.position, FocusOffset)
  }

  /** The orbit-controls target the selection effect chooses. */
  function DesiredLookAt(selected: Option<ThoughtNode>): (p: Vec3)
    ensures selected.None? ==> p == Origin
    ensures selected.Some? ==> p == selected.value.position
  {
    match selected
    case None => Origin
    case Some(t) => t.position
  }

  /** A focused marker ends up 3.5 units in front of the camera, straight along its view axis. */
  lemma FocusDistance(t: ThoughtNode)
    ensures SqDist(DesiredCameraPosition(Some(t)), DesiredLookAt(Some(t))) == 3.5 * 3.5
  {
  }

  /** The overview looks at the origin from 5 units away. */
  lemma OverviewDistance()
    ensures SqDist(DesiredCameraPosition(None), DesiredLookAt(None)) == 5.0 * 5.0
  {
  }

  /** The orbit controls' `autoRotate`: on exactly while nothing is selected. */
  function AutoRotate(selected: Option<ThoughtNode>): (on: bool)
    ensures on <==> selected.None?
  {
    !selected.Some?
  }

  /** The cloud turns by itself only when the camera is headed for the overview of the origin. */
  lemma AutoRotateOnlyAtOverview(selected: Option<ThoughtNode>)
    ensures AutoRotate(selected) ==> DesiredCameraPosition(selected) == DefaultCameraPosition && DesiredLookAt(selected) == Origin
    ensures !AutoRotate(selected) ==> SqDist(DesiredCameraPosition(selected), DesiredLookAt(selected)) == 3.5 * 3.5
  {
    if selected.Some? {
      FocusDistance(selected.value);
    }
  }

  /** One frame of easing: `current.lerp(target, 0.05)`. */
  function Ease(current: Vec3, target: Vec3): Vec3 {
    Lerp(current, target, Damping)
  }

  /** The position after `k` eased frames towards a fixed target. */
  function EaseFrames(current: Vec3, target: Vec3, k: nat): Vec3
    decreases k
  {
    if k == 0 then current else EaseFrames(Ease(current, target), target, k - 1)
  }

  /** Each frame shrinks the squared distance to the target by the factor 0.95 * 0.95. */
  lemma EaseShrinks(current: Vec3, target: Vec3)
    ensures SqDist(Ease(current, target), target) == 0.9025 * SqDist(current, target)
  {
    var c := Ease(current, target);
    assert c.x - target.x == 0.95 * (current.x - target.x);
    assert c.y - target.y == 0.95 * (current.y - target.y);
    assert c.z - target.z == 0.95 * (current.z - target.z);
  }

  function Pow(b: real, k: nat): real {
    if k == 0 then 1.0 else b * Pow(b, k - 1)
  }

  lemma {:induction false} EaseFramesShrink(current: Vec3, target: Vec3, k: nat)
    ensures SqDist(EaseFrames(current, target, k), target) == Pow(0.9025, k) * SqDist(current, target)
    decreases k
  {
    if k > 0 {
      var next := Ease(current, target);
      EaseShrinks(current, target);
      EaseFramesShrink(next, target, k - 1);
      var p := Pow(0.9025, k - 1);
      assert p * (0.9025 * SqDist(current, target)) == (0.9025 * p) * SqDist(current, target);
    }
  }

  lemma MulMono(a: real, b: real, d: real)
    requires a <= b && d >= 0.0
    ensures a * d <= b * d && d * a <= d * b
  {
  }

  lemma MulStrict(a: real, b: real, d: real)
    requires a < b && d > 0.0
    ensures a * d < b * d && d * a < d * b
  {
  }

  lemma {:induction false} PowAdd(b: real, j: nat, k: nat)
    ensures Pow(b, j + k) == Pow(b, j) * Pow(b, k)
    decreases j
  {
    if j > 0 {
      PowAdd(b, j - 1, k);
      assert Pow(b, j + k) == b * Pow(b, j - 1 + k);
    }
  }

  lemma UnitProduct(a: real, c: real)
    requires 0.0 <= a <= 1.0 && 0.0 <= c <= 1.0
    ensures 0.0 <= a * c <= 1.0
  {
    MulMono(0.0, a, c);
    MulMono(a, 1.0, c);
    assert a * c <= 1.0 * c;
    assert 1.0 * c == c;
  }

  lemma {:induction false} PowUnit(b: real, k: nat)
    requires 0.0 <= b <= 1.0
    ensures 0.0 <= Pow(b, k) <= 1.0
  {
    if k > 0 {
      PowUnit(b, k - 1);
      UnitProduct(b, Pow(b, k - 1));
    }
  }

  lemma {:induction false} PowInverse(m: nat)
    ensures Pow(0.5, m) * Pow(2.0, m) == 1.0
  {
    if m > 0 {
      PowInverse(m - 1);
      assert Pow(0.5, m) * Pow(2.0, m) == (0.5 * 2.0) * (Pow(0.5, m - 1) * Pow(2.0, m - 1));
    }
  }

  /** Seven frames at least halve the squared distance: 0.9025^7 is about 0.488. */
  lemma SevenFramesHalve()
    ensures Pow(0.9025, 7) < 0.5
  {
    var q := 0.9025 * 0.9025;
    assert Pow(0.9025, 2) == q;
    assert Pow(0.9025, 4) == q * q by { PowAdd(0.9025, 2, 2); }
    assert Pow(0.9025, 6) == q * q * q by { PowAdd(0.9025, 4, 2); }
    assert Pow(0.9025, 7) == 0.9025 * (q * q * q);
  }

  /** Every block of seven frames halves the shrink factor at least once more. */
  lemma {:induction false} HalvingFrames(m: nat)
    ensures 0.0 <= Pow(0.9025, 7 * m) <= Pow(0.5, m)
  {
    if m > 0 {
      HalvingFrames(m - 1);
      PowAdd(0.9025, 7, 7 * (m - 1));
      assert 7 * m == 7 + 7 * (m - 1);
      SevenFramesHalve();
      PowUnit(0.9025, 7);
      var p := Pow(0.9025, 7 * (m - 1));
      assert Pow(0.9025, 7) * p <= 0.5 * p;
      assert 0.5 * p <= 0.5 * Pow(0.5, m - 1);
    }
  }

  /** A factor `f` at most `1 / p` keeps `d < 0.01 * p` under the threshold. */
  lemma ScaledBelowThreshold(f: real, h: real, p: real, d: real)
    requires f <= h && h >= 0.0 && h * p == 1.0 && 0.0 <= d < SettleSqDistance * p
    ensures f * d < SettleSqDistance
  {
    assert h > 0.0;
    MulMono(f, h, d);
    MulStrict(d, SettleSqDistance * p, h);
    assert h * (SettleSqDistance * p) == SettleSqDistance * (h * p);
  }

  /** After at least `7 * m` frames the shrink factor is at most `2^-m`. */
  lemma ShrinkFactorHalves(k: nat, m: nat)
    requires k >= 7 * m
    ensures Pow(0.9025, k) <= Pow(0.5, m)
  {
    PowAdd(0.9025, 7 * m, k - 7 * m);
    PowUnit(0.9025, k - 7 * m);
    HalvingFrames(m);
    var g, r := Pow(0.9025, 7 * m), Pow(0.9025, k - 7 * m);
    assert Pow(0.9025, k) == g * r;
    MulMono(r, 1.0, g);
  }

  /**
   * The squared distance `d` is under the stop threshold after `k` frames once `k >= 7 * m` and
   * `d < 0.01 * 2^m`: about `7 * log2(100 * d)` frames suffice (84 for a 5-unit jump, where 77 are needed).
   */
  lemma SettlesWithin(current: Vec3, target: Vec3, k: nat, m: nat)
    requires k >= 7 * m && SqDist(current, target) < SettleSqDistance * Pow(2.0, m)
    ensures SqDist(EaseFrames(current, target, k), target) < SettleSqDistance
  {
    SqDistNonNegative(current, target);
    EaseFramesShrink(current, target, k);
    ShrinkFactorHalves(k, m);
    PowInverse(m);
    PowUnit(0.5, m);
    ScaledBelowThreshold(Pow(0.9025, k), Pow(0.5, m), Pow(2.0, m), SqDist(current, target));
  }

  /** A five-unit jump of the camera settles within 84 frames. */
  lemma FiveUnitJumpSettles(current: Vec3, target: Vec3)
    requires SqDist(current, target) == 25.0
    ensures SqDist(EaseFrames(current, target, 84), target) < SettleSqDistance
  {
    assert Pow(2.0, 12) == 4096.0 by { PowAdd(2.0, 6, 6); PowAdd(2.0, 3, 3); }
    SettlesWithin(current, target, 84, 12);
  }

  /**
   * The refs of `Scene` together with the camera and orbit-controls state they drive.
   * `controls.update()` (damping, auto-rotation, user dragging) is represented by `ControlsMoved`.
   */
  class CameraDirector {
    var cameraPosition: Vec3
    var controlsTarget: Vec3
    var controlsMounted: bool
    var targetCameraPos: Vec3
    var targetControlsTarget: Vec3
    var currentCameraPos: Vec3
    var currentControlsTarget: Vec3
    var isAnimating: bool

    /** The scene at mount: everything at the default view, nothing animating. */
    constructor(controlsMounted: bool)
      ensures this.controlsMounted == controlsMounted
      ensures cameraPosition == DefaultCameraPosition && controlsTarget == Origin
      ensures targetCameraPos == DefaultCameraPosition && targetControlsTarget == Origin
      ensures currentCameraPos == DefaultCameraPosition && currentControlsTarget == Origin
      ensures !isAnimating
    {
      this.controlsMounted := controlsMounted;
      cameraPosition := DefaultCameraPosition;
      controlsTarget := Origin;
      targetCameraPos := DefaultCameraPosition;
      targetControlsTarget := Origin;
      currentCameraPos := DefaultCameraPosition;
      currentControlsTarget := Origin;
      isAnimating := false;
    }

    /** The effect on a selection change: start from where the camera is, aim at the new view. */
    method Retarget(selected: Option<ThoughtNode>)
      modifies this
      ensures !old(controlsMounted) ==> unchanged(this)
      ensures old(controlsMounted) ==>
        && currentCameraPos == old(cameraPosition)
        && currentControlsTarget == old(controlsTarget)
        && targetCameraPos == DesiredCameraPosition(selected)
        && targetControlsTarget == DesiredLookAt(selected)
        && isAnimating
        && cameraPosition == old(cameraPosition)
        && controlsTarget == old(controlsTarget)
        && controlsMounted
    {
      if !controlsMounted {
        return;
      }
      currentCameraPos := cameraPosition;
      currentControlsTarget := controlsTarget;
      match selected {
        case Some(t) =>
          targetCameraPos := Add(t.position, FocusOffset);
          targetControlsTarget := t.position;
        case None =>
          targetCameraPos := DefaultCameraPosition;
          targetControlsTarget := Origin;
      }
      isAnimating := true;
    }

    /** One animation frame: ease both points, copy them to the scene, stop when both are close. */
    method Frame()
      modifies this
      ensures !old(controlsMounted) || !old(isAnimating) ==> unchanged(this)
      ensures old(controlsMounted) && old(isAnimating) ==>
        && currentCameraPos == Ease(old(currentCameraPos), targetCameraPos)
        && currentControlsTarget == Ease(old(currentControlsTarget), targetControlsTarget)
        && cameraPosition == currentCameraPos
        && controlsTarget == currentControlsTarget
        && (isAnimating <==> !(SqDist(currentCameraPos, targetCameraPos) < SettleSqDistance
                               && SqDist(currentControlsTarget, targetControlsTarget) < SettleSqDistance))
      ensures targetCameraPos == old(targetCameraPos) && targetControlsTarget == old(targetControlsTarget)
      ensures controlsMounted == old(controlsMounted)
    {
      if !controlsMounted || !isAnimating {
        return;
      }
      currentCameraPos := Lerp(currentCameraPos, targetCameraPos, 0.05);
      cameraPosition := currentCameraPos;
      currentControlsTarget := Lerp(currentControlsTarget, targetControlsTarget, 0.05);
      controlsTarget := currentControlsTarget;
      if SqDist(currentCameraPos, targetCameraPos) < 0.01
         && SqDist(currentControlsTarget, targetControlsTarget) < 0.01 {
        isAnimating := false;
      }
    }

    /** `controls.update()` or the user moving the view: the camera and look-at point change. */
    method ControlsMoved(position: Vec3, lookAt: Vec3)
      modifies this
      ensures cameraPosition == position && controlsTarget == lookAt
      ensures targetCameraPos == old(targetCameraPos) && targetControlsTarget == old(targetControlsTarget)
      ensures currentCameraPos == old(currentCameraPos) && currentControlsTarget == old(currentControlsTarget)
      ensures isAnimating == old(isAnimating) && controlsMounted == old(controlsMounted)
    {
      cameraPosition := position;
      controlsTarget := lookAt;
    }
  }
}
