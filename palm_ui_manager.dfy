/** The palm menu driven by the stop-sign gesture: a select event shows the
    menu, an unselect event starts a hide timer that per-frame updates
    advance, and the app buttons route to sub-app panels while dismissing the
    menu. The fade coroutines are reduced to the palm canvas's active flag,
    which each of them sets on its first step. Placing the canvas on the
    hand is geometry and is not part of this model. */
module PalmMenu {
  import opened FrameTime
  import CameraApp

  /** The serialized default of the hide delay, in seconds. */
  const DefaultHideDelay: real := 1.5

  /** The manager's own state: its three private fields and the active flags
      of the three panels it owns. */
  datatype MenuState = MenuState(
    uiActive: bool,
    gestureActive: bool,
    hideTimer: real,
    canvasActive: bool,
    mainPanelActive: bool,
    cameraPanelActive: bool)

  /** What can happen to the manager: the gesture's two events, a frame of
      the given length, and the four buttons (three app buttons carry their
      app name). */
  datatype MenuEvent =
    | GestureSelected
    | GestureUnselected
    | Frame(dt: real)
    | AppButton(appName: string)
    | BackButton

  function Shown(s: MenuState): MenuState
  {
    s.(uiActive := true, gestureActive := true, hideTimer := 0.0, canvasActive := true)
  }

  function HideTimerStarted(s: MenuState): MenuState
  {
    s.(gestureActive := false, hideTimer := 0.0)
  }

  function Hidden(s: MenuState): MenuState
  {
    s.(uiActive := false, gestureActive := false, canvasActive := false)
  }

  function TimerHandled(s: MenuState, dt: real, hideDelay: real): MenuState
  {
    if s.gestureActive then s
    else
      var t := s.(hideTimer := s.hideTimer + dt);
      if t.hideTimer >= hideDelay then Hidden(t) else t
  }

  function Ticked(s: MenuState, dt: real, hideDelay: real): MenuState
  {
    if s.uiActive then TimerHandled(s, dt, hideDelay) else s
  }

  function AppLaunched(s: MenuState, appName: string): MenuState
  {
    var t := s.(mainPanelActive := false);
    Hidden(if appName == "Camera" then t.(cameraPanelActive := true) else t)
  }

  function BackedToMain(s: MenuState): MenuState
  {
    s.(cameraPanelActive := false, mainPanelActive := true)
  }

  function Step(s: MenuState, e: MenuEvent, hideDelay: real): MenuState
  {
    match e
    case GestureSelected => Shown(s)
    case GestureUnselected => HideTimerStarted(s)
    case Frame(dt) => Ticked(s, dt, hideDelay)
    case AppButton(name) => AppLaunched(s, name)
    case BackButton => BackedToMain(s)
  }

  function Run(s: MenuState, events: seq<MenuEvent>, hideDelay: real): MenuState
    decreases |events|
  {
    if events == [] then s else Run(Step(s, events[0], hideDelay), events[1..], hideDelay)
  }

  function Frames(dts: seq<real>): seq<MenuEvent>
  {
    if dts == [] then [] else [Frame(dts[0])] + Frames(dts[1..])
  }

  /** The canvas is shown exactly while the menu is active; a held gesture
      implies an active menu and a stopped timer; and with a positive delay an
      active menu never carries an expired timer. */
  ghost predicate Consistent(s: MenuState, hideDelay: real)
  {
    && s.canvasActive == s.uiActive
    && (s.gestureActive ==> s.uiActive && s.hideTimer == 0.0)
    && (hideDelay > 0.0 && s.uiActive ==> s.hideTimer < hideDelay)
  }

  lemma {:induction false} RunKeepsConsistent(s: MenuState, events: seq<MenuEvent>, hideDelay: real)
    requires Consistent(s, hideDelay)
    ensures Consistent(Run(s, events, hideDelay), hideDelay)
    decreases |events|
  {
    if events != [] {
      RunKeepsConsistent(Step(s, events[0], hideDelay), events[1..], hideDelay);
    }
  }

  /** Frames change nothing once the menu is hidden. */
  lemma {:induction false} FramesWhileHidden(s: MenuState, dts: seq<real>, hideDelay: real)
    requires !s.uiActive
    ensures Run(s, Frames(dts), hideDelay) == s
  {
    if dts != [] {
      var events := Frames(dts);
      assert events[0] == Frame(dts[0]) && events[1..] == Frames(dts[1..]);
      FramesWhileHidden(s, dts[1..], hideDelay);
    }
  }

  /** After the gesture is released, with no new select event the menu
      hides as soon as the accumulated inactive time reaches the delay (the
      comparison is `>=`), and while it stays up the timer holds exactly the
      time accumulated so far. */
  lemma {:induction false} HidesOnceDelayReached(s: MenuState, dts: seq<real>, hideDelay: real)
    requires s.uiActive && !s.gestureActive && s.hideTimer < hideDelay
    requires NonNegative(dts)
    ensures var t := Run(s, Frames(dts), hideDelay);
      && (t.uiActive <==> s.hideTimer + Sum(dts) < hideDelay)
      && (t.uiActive ==> t.hideTimer == s.hideTimer + Sum(dts) && !t.gestureActive)
    decreases |dts|
  {
    if dts != [] {
      var events := Frames(dts);
      assert events[0] == Frame(dts[0]) && events[1..] == Frames(dts[1..]);
      var s1 := Step(s, Frame(dts[0]), hideDelay);
      assert NonNegative(dts[1..]) by {
        forall i | 0 <= i < |dts[1..]| ensures dts[1..][i] >= 0.0 {
          assert dts[1..][i] == dts[i + 1];
        }
      }
      SumNonNegative(dts[1..]);
      if s1.uiActive {
        HidesOnceDelayReached(s1, dts[1..], hideDelay);
      } else {
        FramesWhileHidden(s1, dts[1..], hideDelay);
      }
    }
  }

  /** The manager component. `cameraApp` is the camera sub-app it opens and
      closes. */
  class PalmUIManager {
    const hideDelay: real
    const cameraApp: CameraApp.CameraAppManager
    var uiActive: bool
    var gestureActive: bool
    var hideTimer: real
    var palmCanvasActive: bool
    var mainPanelActive: bool
    var cameraPanelActive: bool

    function State(): MenuState
      reads this
    {
      MenuState(uiActive, gestureActive, hideTimer, palmCanvasActive, mainPanelActive, cameraPanelActive)
    }

    ghost predicate Valid()
      reads this
    {
      Consistent(State(), hideDelay)
    }

    /** Field initialisers followed by `Start`: the palm canvas and the camera
        panel are switched off; the main panel stays as the scene has it. */
    constructor Start(hideDelay: real, mainPanelActive0: bool, cameraApp: CameraApp.CameraAppManager)
      ensures Valid()
      ensures this.hideDelay == hideDelay && this.cameraApp == cameraApp
      ensures !uiActive && !gestureActive && hideTimer == 0.0
      ensures !palmCanvasActive && !cameraPanelActive && mainPanelActive == mainPanelActive0
    {
      this.hideDelay := hideDelay;
      this.cameraApp := cameraApp;
      uiActive, gestureActive, hideTimer := false, false, 0.0;
      palmCanvasActive, cameraPanelActive := false, false;
      mainPanelActive := mainPanelActive0;
    }

    /** Handler of the gesture's select event. */
    method ShowPalmUI()
      requires Valid()
      modifies this
      ensures Valid()
      ensures State() == Step(old(State()), GestureSelected, hideDelay)
      ensures uiActive && gestureActive && hideTimer == 0.0 && palmCanvasActive
      ensures mainPanelActive == old(mainPanelActive) && cameraPanelActive == old(cameraPanelActive)
    {
      palmCanvasActive := true;
      uiActive := true;
      gestureActive := true;
      hideTimer := 0.0;
    }

    /** Handler of the gesture's unselect event. */
    method StartHideTimer()
      requires Valid()
      modifies this
      ensures Valid()
      ensures State() == Step(old(State()), GestureUnselected, hideDelay)
      ensures !gestureActive && hideTimer == 0.0
      ensures uiActive == old(uiActive) && palmCanvasActive == old(palmCanvasActive)
      ensures mainPanelActive == old(mainPanelActive) && cameraPanelActive == old(cameraPanelActive)
    {
      gestureActive := false;
      hideTimer := 0.0;
    }

    method HidePalmUI()
      modifies this
      ensures !uiActive && !gestureActive && !palmCanvasActive
      ensures hideTimer == old(hideTimer)
      ensures mainPanelActive == old(mainPanelActive) && cameraPanelActive == old(cameraPanelActive)
    {
      palmCanvasActive := false;
      uiActive := false;
      gestureActive := false;
    }

    method HandleHideTimer(dt: real)
      requires Valid()
      modifies this
      ensures Valid()
      ensures State() == TimerHandled(old(State()), dt, hideDelay)
      ensures old(gestureActive) ==> State() == old(State())
      ensures !old(gestureActive) ==>
        && hideTimer == old(hideTimer) + dt
        && (uiActive <==> old(uiActive) && hideTimer < hideDelay)
    {
      if !gestureActive {
        hideTimer := hideTimer + dt;
        if hideTimer >= hideDelay {
          HidePalmUI();
        }
      }
    }

    /** One frame of length `dt`. */
    method Update(dt: real)
      requires Valid()
      modifies this
      ensures Valid()
      ensures State() == Step(old(State()), Frame(dt), hideDelay)
      ensures !old(uiActive) || old(gestureActive) ==> State() == old(State())
      ensures old(uiActive) && !old(gestureActive) ==>
        && hideTimer == old(hideTimer) + dt
        && (uiActive <==> hideTimer < hideDelay)
        && mainPanelActive == old(mainPanelActive) && cameraPanelActive == old(cameraPanelActive)
    {
      if uiActive {
        HandleHideTimer(dt);
      }
    }

    /** Handler of the three app buttons. */
    method LaunchApp(appName: string)
      requires Valid()
      modifies this, cameraApp
      ensures Valid()
      ensures State() == Step(old(State()), AppButton(appName), hideDelay)
      ensures !mainPanelActive && !uiActive && !gestureActive && !palmCanvasActive
      ensures hideTimer == old(hideTimer)
      ensures cameraPanelActive == (appName == "Camera" || old(cameraPanelActive))
      ensures cameraApp.viewActive == (appName == "Camera" || old(cameraApp.viewActive))
      ensures cameraApp.activeCamera == old(cameraApp.activeCamera)
      ensures cameraApp.back == old(cameraApp.back) && cameraApp.front == old(cameraApp.front)
    {
      mainPanelActive := false;
      if appName == "Camera" {
        cameraPanelActive := true;
        cameraApp.OpenCameraView();
      }
      HidePalmUI();
    }

    /** Handler of the back button. */
    method BackToMain()
      requires Valid()
      modifies this, cameraApp
      ensures Valid()
      ensures State() == Step(old(State()), BackButton, hideDelay)
      ensures !cameraApp.viewActive && !cameraPanelActive && mainPanelActive
      ensures uiActive == old(uiActive) && gestureActive == old(gestureActive)
      ensures hideTimer == old(hideTimer) && palmCanvasActive == old(palmCanvasActive)
      ensures cameraApp.activeCamera == old(cameraApp.activeCamera)
      ensures cameraApp.back == old(cameraApp.back) && cameraApp.front == old(cameraApp.front)
    {
      cameraApp.CloseCameraView();
      cameraPanelActive := false;
      mainPanelActive := true;
    }
  }
}
