/** The second palm-menu controller, polled every frame from hand tracking,
    and the animator that fades the menu's canvas group. The palm-facing test
    (a dot product against a threshold) and the finger-confidence test are
    inputs here: `palmVisible` and `handSteady`. Canvas rotation, the scale
    animation and the canvas set-up are not part of this model. */
module PalmController {
  import opened FrameTime

  datatype Option<T> = None | Some(value: T)

  /** Serialized defaults. */
  const DefaultHideDelay: real := 1.0
  const DefaultFadeSpeed: real := 5.0

  const ActiveStatus: string := "Palm Interface Active"
  const LaunchedPrefix: string := "Launched: "
  const ButtonNames: seq<string> := ["Messages", "Camera", "Settings", "Apps"]

  datatype Vec3 = Vec3(x: real, y: real, z: real) {
    function Plus(v: Vec3): Vec3 { Vec3(x + v.x, y + v.y, z + v.z) }
    function Scale(k: real): Vec3 { Vec3(k * x, k * y, k * z) }
  }

  /** Name of the app behind action button `index`; `None` where the lookup
      in the name table fails. */
  function ButtonName(index: int): (name: Option<string>)
    ensures name.Some? <==> 0 <= index < 4
    ensures name.Some? ==> name.value == ButtonNames[index]
    ensures name.Some? ==> name.value in {"Messages", "Camera", "Settings", "Apps"}
  {
    if 0 <= index < |ButtonNames| then Some(ButtonNames[index]) else None
  }

  /** Visibility part of the controller: the visible flag, the hide timer,
      the canvas's active flag and the status text. */
  datatype Visibility = Visibility(
    isUIVisible: bool,
    hideTimer: real,
    canvasActive: bool,
    statusText: string)

  /** One tick of `Update`: `tracked` is "the hand is tracked and its
      skeleton is initialised". */
  datatype ControllerEvent =
    | Frame(tracked: bool, palmVisible: bool, handSteady: bool, dt: real)
    | ButtonPressed(index: int)

  function Shown(s: Visibility): Visibility
  {
    if s.isUIVisible then s else s.(isUIVisible := true, canvasActive := true, statusText := ActiveStatus)
  }

  function Hidden(s: Visibility): Visibility
  {
    if s.isUIVisible then s.(isUIVisible := false, canvasActive := false) else s
  }

  function GestureChecked(s: Visibility, palmVisible: bool, handSteady: bool, dt: real, hideDelay: real): Visibility
  {
    if palmVisible && handSteady then Shown(s).(hideTimer := 0.0)
    else
      var t := s.(hideTimer := s.hideTimer + dt);
      if t.hideTimer > hideDelay then Hidden(t) else t
  }

  /** An index outside the name table raises before the status text is
      written, so the state is left as it was. */
  function Pressed(s: Visibility, index: int): Visibility
  {
    match ButtonName(index)
    case Some(name) => s.(statusText := LaunchedPrefix + name)
    case None => s
  }

  function Step(s: Visibility, e: ControllerEvent, hideDelay: real): Visibility
  {
    match e
    case Frame(tracked, palmVisible, handSteady, dt) =>
      if tracked then GestureChecked(s, palmVisible, handSteady, dt, hideDelay) else s
    case ButtonPressed(index) => Pressed(s, index)
  }

  function Run(s: Visibility, events: seq<ControllerEvent>, hideDelay: real): Visibility
    decreases |events|
  {
    if events == [] then s else Run(Step(s, events[0], hideDelay), events[1..], hideDelay)
  }

  /** Tracked frames in which the palm is turned away. */
  function IdleFrames(dts: seq<real>): seq<ControllerEvent>
  {
    if dts == [] then [] else [Frame(true, false, false, dts[0])] + IdleFrames(dts[1..])
  }

  /** The canvas is active exactly while the menu is visible, and with a
      non-negative delay a visible menu's timer has not passed the delay. */
  ghost predicate Consistent(s: Visibility, hideDelay: real)
  {
    && s.canvasActive == s.isUIVisible
    && (hideDelay >= 0.0 && s.isUIVisible ==> s.hideTimer <= hideDelay)
  }

  lemma {:induction false} RunKeepsConsistent(s: Visibility, events: seq<ControllerEvent>, hideDelay: real)
    requires Consistent(s, hideDelay)
    ensures Consistent(Run(s, events, hideDelay), hideDelay)
    decreases |events|
  {
    if events != [] {
      RunKeepsConsistent(Step(s, events[0], hideDelay), events[1..], hideDelay);
    }
  }

  /** With the palm turned away the timer keeps counting every frame, even
      after the menu has gone, and the menu stays up exactly while the
      accumulated time has not passed the delay (the comparison is `>`). */
  lemma {:induction false} HidesOnlyAfterDelayPassed(s: Visibility, dts: seq<real>, hideDelay: real)
    requires s.isUIVisible && s.hideTimer <= hideDelay
    requires NonNegative(dts)
    ensures var t := Run(s, IdleFrames(dts), hideDelay);
      && t.hideTimer == s.hideTimer + Sum(dts)
      && (t.isUIVisible <==> s.hideTimer + Sum(dts) <= hideDelay)
    decreases |dts|
  {
    if dts != [] {
      var events := IdleFrames(dts);
      assert events[0] == Frame(true, false, false, dts[0]) && events[1..] == IdleFrames(dts[1..]);
      var s1 := Step(s, events[0], hideDelay);
      assert NonNegative(dts[1..]) by {
        forall i | 0 <= i < |dts[1..]| ensures dts[1..][i] >= 0.0 {
          assert dts[1..][i] == dts[i + 1];
        }
      }
      SumNonNegative(dts[1..]);
      if s1.isUIVisible {
        HidesOnlyAfterDelayPassed(s1, dts[1..], hideDelay);
      } else {
        IdleWhileHidden(s1, dts[1..], hideDelay);
      }
    }
  }

  /** Once hidden, idle frames only advance the timer. */
  lemma {:induction false} IdleWhileHidden(s: Visibility, dts: seq<real>, hideDelay: real)
    requires !s.isUIVisible
    ensures Run(s, IdleFrames(dts), hideDelay) == s.(hideTimer := s.hideTimer + Sum(dts))
    decreases |dts|
  {
    if dts != [] {
      var events := IdleFrames(dts);
      assert events[0] == Frame(true, false, false, dts[0]) && events[1..] == IdleFrames(dts[1..]);
      IdleWhileHidden(s.(hideTimer := s.hideTimer + dts[0]), dts[1..], hideDelay);
    }
  }

  class PalmUIController {
    const hideDelay: real
    const palmOffset: real
    var isUIVisible: bool
    var hideTimer: real
    var canvasActive: bool
    var statusText: string
    var palmPosition: Vec3
    var palmNormal: Vec3
    var canvasPosition: Vec3

    function State(): Visibility
      reads this
    {
      Visibility(isUIVisible, hideTimer, canvasActive, statusText)
    }

    ghost predicate Valid()
      reads this
    {
      Consistent(State(), hideDelay)
    }

    /** Field initialisers followed by `Start`, which switches the canvas
        off. The status text and the canvas position are as the scene has
        them. */
    constructor Start(hideDelay: real, palmOffset: real, statusText0: string, canvasPosition0: Vec3)
      ensures Valid()
      ensures this.hideDelay == hideDelay && this.palmOffset == palmOffset
      ensures !isUIVisible && hideTimer == 0.0 && !canvasActive
      ensures statusText == statusText0 && canvasPosition == canvasPosition0
    {
      this.hideDelay := hideDelay;
      this.palmOffset := palmOffset;
      isUIVisible, hideTimer := false, 0.0;
      palmPosition, palmNormal := Vec3(0.0, 0.0, 0.0), Vec3(0.0, 0.0, 0.0);
      canvasActive := false;
      statusText := statusText0;
      canvasPosition := canvasPosition0;
    }

    /** Idempotent: a second call changes nothing, and in particular does not
        overwrite a status text set in between. */
    method ShowPalmUI()
      modifies this
      ensures State() == Shown(old(State()))
      ensures isUIVisible
      ensures old(isUIVisible) ==> State() == old(State())
      ensures !old(isUIVisible) ==> canvasActive && statusText == ActiveStatus
      ensures hideTimer == old(hideTimer)
      ensures palmPosition == old(palmPosition) && palmNormal == old(palmNormal)
      ensures canvasPosition == old(canvasPosition)
    {
      if !isUIVisible {
        canvasActive := true;
        isUIVisible := true;
        statusText := ActiveStatus;
      }
    }

    /** Idempotent: once hidden, a second call changes nothing. */
    method HidePalmUI()
      modifies this
      ensures State() == Hidden(old(State()))
      ensures !isUIVisible
      ensures old(isUIVisible) ==> !canvasActive
      ensures !old(isUIVisible) ==> State() == old(State())
      ensures hideTimer == old(hideTimer) && statusText == old(statusText)
      ensures palmPosition == old(palmPosition) && palmNormal == old(palmNormal)
      ensures canvasPosition == old(canvasPosition)
    {
      if isUIVisible {
        canvasActive := false;
        isUIVisible := false;
      }
    }

    /** `wristPosition` and `wristUp` are the wrist bone's sample this frame. */
    method CheckPalmGesture(wristPosition: Vec3, wristUp: Vec3, palmVisible: bool, handSteady: bool, dt: real)
      requires Valid()
      modifies this
      ensures Valid()
      ensures State() == GestureChecked(old(State()), palmVisible, handSteady, dt, hideDelay)
      ensures palmPosition == wristPosition && palmNormal == wristUp
      ensures palmVisible && handSteady ==> isUIVisible && hideTimer == 0.0
      ensures !(palmVisible && handSteady) ==>
        && hideTimer == old(hideTimer) + dt
        && (isUIVisible <==> old(isUIVisible) && hideTimer <= hideDelay)
      ensures canvasPosition == old(canvasPosition)
    {
      palmPosition := wristPosition;
      palmNormal := wristUp;
      if palmVisible && handSteady {
        ShowPalmUI();
        hideTimer := 0.0;
      } else {
        hideTimer := hideTimer + dt;
        if hideTimer > hideDelay {
          HidePalmUI();
        }
      }
    }

    /** Only a visible menu is moved: it is put `palmOffset` along the palm
        normal from the palm. */
    method UpdateUIPosition()
      modifies this`canvasPosition
      ensures isUIVisible ==> canvasPosition == palmPosition.Plus(palmNormal.Scale(palmOffset))
      ensures !isUIVisible ==> canvasPosition == old(canvasPosition)
    {
      if isUIVisible {
        canvasPosition := palmPosition.Plus(palmNormal.Scale(palmOffset));
      }
    }

    /** One frame. Without a tracked hand and an initialised skeleton,
        nothing changes. */
    method Update(handTracked: bool, skeletonInitialized: bool, wristPosition: Vec3, wristUp: Vec3,
                  palmVisible: bool, handSteady: bool, dt: real)
      requires Valid()
      modifies this
      ensures Valid()
      ensures State() == Step(old(State()), Frame(handTracked && skeletonInitialized, palmVisible, handSteady, dt), hideDelay)
      ensures !(handTracked && skeletonInitialized) ==>
        && State() == old(State())
        && palmPosition == old(palmPosition) && palmNormal == old(palmNormal)
        && canvasPosition == old(canvasPosition)
      ensures handTracked && skeletonInitialized ==>
        && palmPosition == wristPosition && palmNormal == wristUp
        && canvasPosition == (if isUIVisible then wristPosition.Plus(wristUp.Scale(palmOffset)) else old(canvasPosition))
    {
      if handTracked && skeletonInitialized {
        CheckPalmGesture(wristPosition, wristUp, palmVisible, handSteady, dt);
        UpdateUIPosition();
      }
    }

    /** `ok` is false where the name lookup raises for an out-of-range index;
        the handler is then abandoned before the status text is written. */
    method OnButtonPressed(index: int) returns (ok: bool)
      requires Valid()
      modifies this`statusText
      ensures Valid()
      ensures State() == Step(old(State()), ButtonPressed(index), hideDelay)
      ensures ok <==> 0 <= index < 4
      ensures ok ==> statusText == LaunchedPrefix + ButtonNames[index]
      ensures !ok ==> statusText == old(statusText)
    {
      ok := 0 <= index < |ButtonNames|;
      if ok {
        statusText := LaunchedPrefix + ButtonNames[index];
      }
    }
  }

  function Abs(x: real): real { if x < 0.0 then -x else x }

  function Max(a: real, b: real): real { if a < b then b else a }

  /** The engine's `Mathf.MoveTowards`: reach `target` if it is within
      `maxDelta`, otherwise take a step of `maxDelta` towards it (the sign of
      a zero difference counts as positive). */
  function MoveTowards(current: real, target: real, maxDelta: real): (r: real)
    ensures maxDelta >= 0.0 ==> Abs(r - current) <= maxDelta
    ensures maxDelta >= 0.0 ==> Abs(target - r) == Max(0.0, Abs(target - current) - maxDelta)
    ensures maxDelta >= 0.0 ==> (current <= r <= target || target <= r <= current)
  {
    if Abs(target - current) <= maxDelta then target
    else current + (if target - current >= 0.0 then 1.0 else -1.0) * maxDelta
  }

  function TargetAlpha(visible: bool): real { if visible then 1.0 else 0.0 }

  datatype Fade = Fade(alpha: real, targetVisible: bool)

  datatype AnimatorEvent = TargetSet(visible: bool) | Animate(dt: real)

  function Animated(f: Fade, dt: real, fadeSpeed: real): Fade
  {
    f.(alpha := MoveTowards(f.alpha, TargetAlpha(f.targetVisible), fadeSpeed * dt))
  }

  function AnimatorStep(f: Fade, e: AnimatorEvent, fadeSpeed: real): Fade
  {
    match e
    case TargetSet(v) => f.(targetVisible := v)
    case Animate(dt) => Animated(f, dt, fadeSpeed)
  }

  function AnimatorRun(f: Fade, events: seq<AnimatorEvent>, fadeSpeed: real): Fade
    decreases |events|
  {
    if events == [] then f else AnimatorRun(AnimatorStep(f, events[0], fadeSpeed), events[1..], fadeSpeed)
  }

  function AnimateFrames(dts: seq<real>): seq<AnimatorEvent>
  {
    if dts == [] then [] else [Animate(dts[0])] + AnimateFrames(dts[1..])
  }

  predicate ForwardInTime(events: seq<AnimatorEvent>)
  {
    forall i :: 0 <= i < |events| && events[i].Animate? ==> events[i].dt >= 0.0
  }

  /** With a non-negative fade speed, alpha never leaves [0, 1], whatever
      the sequence of target changes and frames. */
  lemma {:induction false} AlphaStaysInRange(f: Fade, events: seq<AnimatorEvent>, fadeSpeed: real)
    requires 0.0 <= f.alpha <= 1.0 && fadeSpeed >= 0.0
    requires ForwardInTime(events)
    ensures 0.0 <= AnimatorRun(f, events, fadeSpeed).alpha <= 1.0
    decreases |events|
  {
    if events != [] {
      var f1 := AnimatorStep(f, events[0], fadeSpeed);
      if events[0].Animate? {
        assert fadeSpeed * events[0].dt >= 0.0;
      }
      assert ForwardInTime(events[1..]) by {
        forall i | 0 <= i < |events[1..]| && events[1..][i].Animate? ensures events[1..][i].dt >= 0.0 {
          assert events[1..][i] == events[i + 1];
        }
      }
      AlphaStaysInRange(f1, events[1..], fadeSpeed);
    }
  }

  /** How far a fade may move alpha over a run of frames: `fadeSpeed * dt`
      per frame. */
  function Travel(dts: seq<real>, fadeSpeed: real): real
  {
    if dts == [] then 0.0 else fadeSpeed * dts[0] + Travel(dts[1..], fadeSpeed)
  }

  lemma {:induction false} TravelIsSpeedTimesTime(dts: seq<real>, fadeSpeed: real)
    requires fadeSpeed >= 0.0 && NonNegative(dts)
    ensures Travel(dts, fadeSpeed) == fadeSpeed * Sum(dts) && Travel(dts, fadeSpeed) >= 0.0
    decreases |dts|
  {
    if dts != [] {
      assert NonNegative(dts[1..]) by {
        forall i | 0 <= i < |dts[1..]| ensures dts[1..][i] >= 0.0 {
          assert dts[1..][i] == dts[i + 1];
        }
      }
      TravelIsSpeedTimesTime(dts[1..], fadeSpeed);
      SumNonNegative(dts[1..]);
      ScaledSplit(fadeSpeed, dts[0], Sum(dts[1..]));
    }
  }

  lemma {:induction false} FadeClosesBy(f: Fade, dts: seq<real>, fadeSpeed: real)
    requires fadeSpeed >= 0.0 && NonNegative(dts)
    ensures var g := AnimatorRun(f, AnimateFrames(dts), fadeSpeed);
      && g.targetVisible == f.targetVisible
      && Abs(TargetAlpha(f.targetVisible) - g.alpha)
         == Max(0.0, Abs(TargetAlpha(f.targetVisible) - f.alpha) - Travel(dts, fadeSpeed))
    decreases |dts|
  {
    if dts != [] {
      var events := AnimateFrames(dts);
      assert events[0] == Animate(dts[0]) && events[1..] == AnimateFrames(dts[1..]);
      var f1 := Animated(f, dts[0], fadeSpeed);
      assert NonNegative(dts[1..]) by {
        forall i | 0 <= i < |dts[1..]| ensures dts[1..][i] >= 0.0 {
          assert dts[1..][i] == dts[i + 1];
        }
      }
      FadeClosesBy(f1, dts[1..], fadeSpeed);
      TravelIsSpeedTimesTime(dts[1..], fadeSpeed);
      ScaledSplit(fadeSpeed, dts[0], 0.0);
      AnimatedCloses(f, dts[0], fadeSpeed);
      ClampedShrinkAdds(Abs(TargetAlpha(f.targetVisible) - f.alpha), fadeSpeed * dts[0], Travel(dts[1..], fadeSpeed));
      assert AnimatorStep(f, events[0], fadeSpeed) == f1;
    }
  }

  /** While the target stays put, each frame closes the distance to it by
      `fadeSpeed * dt`: after frames of total length `Sum(dts)` the distance
      left is the initial one less `fadeSpeed * Sum(dts)`, or zero. */
  lemma FadeCloses(f: Fade, dts: seq<real>, fadeSpeed: real)
    requires fadeSpeed >= 0.0 && NonNegative(dts)
    ensures var g := AnimatorRun(f, AnimateFrames(dts), fadeSpeed);
      && g.targetVisible == f.targetVisible
      && Abs(TargetAlpha(f.targetVisible) - g.alpha)
         == Max(0.0, Abs(TargetAlpha(f.targetVisible) - f.alpha) - fadeSpeed * Sum(dts))
  {
    FadeClosesBy(f, dts, fadeSpeed);
    TravelIsSpeedTimesTime(dts, fadeSpeed);
  }

  /** With the default fade speed a fade takes at most 0.2 s: frames
      totalling that long bring alpha from anywhere in [0, 1] onto its
      target. */
  lemma DefaultFadeCompletes(f: Fade, dts: seq<real>)
    requires 0.0 <= f.alpha <= 1.0 && NonNegative(dts) && Sum(dts) >= 0.2
    ensures AnimatorRun(f, AnimateFrames(dts), DefaultFadeSpeed).alpha == TargetAlpha(f.targetVisible)
  {
    FadeCloses(f, dts, DefaultFadeSpeed);
  }

  /** One frame closes the distance to the target by `fadeSpeed * dt`. */
  lemma AnimatedCloses(f: Fade, dt: real, fadeSpeed: real)
    requires fadeSpeed >= 0.0 && dt >= 0.0
    ensures Animated(f, dt, fadeSpeed).targetVisible == f.targetVisible
    ensures Abs(TargetAlpha(f.targetVisible) - Animated(f, dt, fadeSpeed).alpha)
         == Max(0.0, Abs(TargetAlpha(f.targetVisible) - f.alpha) - fadeSpeed * dt)
  {
    var step := fadeSpeed * dt;
    assert step >= 0.0;
  }

  lemma ScaledSplit(k: real, a: real, b: real)
    requires k >= 0.0 && a >= 0.0 && b >= 0.0
    ensures k * (a + b) == k * a + k * b
    ensures k * a >= 0.0 && k * b >= 0.0
  {
  }

  /** Shrinking a distance by `a` and then by `b`, never below zero, is
      shrinking it by `a + b`. */
  lemma ClampedShrinkAdds(d: real, a: real, b: real)
    requires a >= 0.0 && b >= 0.0
    ensures Max(0.0, Max(0.0, d - a) - b) == Max(0.0, d - (a + b))
  {
  }

  class PalmUIAnimator {
    const fadeSpeed: real
    var alpha: real
    var targetVisible: bool

    function State(): Fade
      reads this
    {
      Fade(alpha, targetVisible)
    }

    /** The canvas group starts transparent and the target hidden. */
    constructor Start(fadeSpeed: real)
      ensures this.fadeSpeed == fadeSpeed && alpha == 0.0 && !targetVisible
    {
      this.fadeSpeed := fadeSpeed;
      alpha := 0.0;
      targetVisible := false;
    }

    method SetVisible(visible: bool)
      modifies this
      ensures State() == AnimatorStep(old(State()), TargetSet(visible), fadeSpeed)
      ensures targetVisible == visible && alpha == old(alpha)
    {
      targetVisible := visible;
    }

    /** One frame of the fade: alpha moves towards 1 or 0 by at most
        `fadeSpeed * dt` and never past the target. */
    method AnimateVisibility(dt: real)
      modifies this
      ensures State() == AnimatorStep(old(State()), Animate(dt), fadeSpeed)
      ensures targetVisible == old(targetVisible)
      ensures fadeSpeed * dt >= 0.0 ==>
        && Abs(alpha - old(alpha)) <= fadeSpeed * dt
        && (old(alpha) <= alpha <= TargetAlpha(targetVisible) || TargetAlpha(targetVisible) <= alpha <= old(alpha))
    {
      var targetAlpha := if targetVisible then 1.0 else 0.0;
      alpha := MoveTowards(alpha, targetAlpha, fadeSpeed * dt);
    }
  }
}
